// badjson/parse.go, the other direction: escaping, Raw, GetQuoted and ToString, and the round
// trip between a tree of text and its printed form.
module Printing {
  import opened Common
  import opened BadJson

  /** MakeEscaped. */
  function Escape(s: string): string
  {
    if s == "" then ""
    else (if Special(s[0]) then ['\\', s[0]] else [s[0]]) + Escape(s[1..])
  }

  /** MakeUnescaped, with `passed` for its passedSlash; a slash at the very end is lost. */
  function Unescape(s: string, quote: char, passed: bool): string
  {
    if s == "" then ""
    else if s[0] == '\\' && !passed then Unescape(s[1..], quote, true)
    else (if passed && s[0] != '\\' && s[0] != quote then ['\\', s[0]] else [s[0]]) + Unescape(s[1..], quote, false)
  }

  // Segments made of text and brackets only.
  predicate Textual(seg: Seg)
  {
    match seg
    case Word(_, _, _) => true
    case Parent(children, _) => forall c :: c in children ==> Textual(c)
    case _ => false
  }

  predicate AllTextual(segs: seq<Seg>) {
    forall c :: c in segs ==> Textual(c)
  }

  /** RuneArray.Raw. */
  function RawWord(input: string, quote: Quote, special: bool): string {
    match quote
    case Double => if special then Unescape(input, '"', false) else input
    case Single => if special then Unescape(input, '\'', false) else input
    case Bare => input
  }

  /** RuneArray.GetQuoted without its outer quotes. */
  function QuotedWord(input: string, quote: Quote, special: bool): string {
    match quote
    case Double => if special then input else Escape(input)
    case Single => Escape(Unescape(input, '\'', false))
    case Bare => Escape(input)
  }

  /** GetQuoted of a RuneArray or a Parent. */
  function Quoted(seg: Seg): (s: string)
    requires Textual(seg)
    ensures s != "" && (s[0] == '"' || s[0] == '[' || s[0] == '{')
    decreases seg, 0
  {
    match seg
    case Word(input, quote, special) => ['"'] + QuotedWord(input, quote, special) + ['"']
    case Parent(children, wasArray) => Print(children, wasArray)
  }

  /** getJSONinternal. */
  function Print(segs: seq<Seg>, wasArray: bool): (s: string)
    requires AllTextual(segs)
    ensures s != "" && s[0] == if wasArray then '[' else '{'
    decreases segs, 1
  {
    [if wasArray then '[' else '{'] + Items(segs, wasArray, 0) + [if wasArray then ']' else '}']
  }

  function Separator(wasArray: bool, i: nat): string {
    if i == 0 then "" else if i % 2 == 1 && !wasArray then ":" else ","
  }

  /** Its loop, from the segment with index `i` on. */
  function Items(segs: seq<Seg>, wasArray: bool, i: nat): string
    requires AllTextual(segs)
    decreases segs, 0
  {
    if segs == [] then ""
    else Separator(wasArray, i) + Quoted(segs[0]) + Items(segs[1..], wasArray, i + 1)
  }

  function ToString(segs: seq<Seg>): string
    requires AllTextual(segs)
  {
    Print(segs, true)
  }

  // ----- what a tree says, apart from how it was written

  datatype Shape = Text(raw: string) | List(items: seq<Shape>, wasArray: bool)

  function ShapeOf(seg: Seg): Shape
    requires Textual(seg)
    decreases seg, 0
  {
    match seg
    case Word(input, quote, special) => Text(RawWord(input, quote, special))
    case Parent(children, wasArray) => List(Shapes(children), wasArray)
  }

  function Shapes(segs: seq<Seg>): (shapes: seq<Shape>)
    requires AllTextual(segs)
    ensures |shapes| == |segs|
    decreases segs, 0
  {
    if segs == [] then [] else [ShapeOf(segs[0])] + Shapes(segs[1..])
  }

  // How many brackets deep a list is, not counting its own.
  function Nest(segs: seq<Seg>): nat
    decreases segs, 0
  {
    if segs == [] then 0 else Max(NestOne(segs[0]), Nest(segs[1..]))
  }

  function NestOne(seg: Seg): nat
    decreases seg, 0
  {
    if seg.Parent? then 1 + Nest(seg.children) else 0
  }

  function Max(x: nat, y: nat): nat {
    if x > y then x else y
  }

  // Whether a double quote mark after `q` ends a quoted text with just `q` in it.
  predicate Closed(q: string) {
    QuotedRun(q + ['"'], '"') == |q|
  }

  // Words as chop makes them: the flag tells whether there is a quote mark or slash, and what
  // is kept from between double quotes can stand there again.
  predicate PlainWord(input: string, quote: Quote, special: bool) {
    special == HasSpecial(input) && (quote == Double && special ==> Closed(input))
  }

  predicate Plain(seg: Seg)
    decreases seg, 0
  {
    match seg
    case Word(input, quote, special) => PlainWord(input, quote, special)
    case Parent(children, _) => AllPlain(children)
    case _ => false
  }

  predicate AllPlain(segs: seq<Seg>)
    decreases segs, 0
  {
    segs == [] || (Plain(segs[0]) && AllPlain(segs[1..]))
  }

  lemma {:induction false} PlainTextual(segs: seq<Seg>)
    requires AllPlain(segs)
    ensures AllTextual(segs)
    decreases segs
  {
    if segs != [] {
      if segs[0].Parent? {
        PlainTextual(segs[0].children);
      }
      PlainTextual(segs[1..]);
      assert segs == [segs[0]] + segs[1..];
    }
  }

  /** Every text can be written as a plain word, in each of the three ways. */
  lemma PlainWords(s: string)
    ensures Plain(Word(s, Bare, HasSpecial(s))) && RawWord(s, Bare, HasSpecial(s)) == s
    ensures Plain(Word(Escape(s), Single, HasSpecial(Escape(s))))
    ensures Plain(Word(Escape(s), Double, HasSpecial(Escape(s))))
    ensures RawWord(Escape(s), Double, HasSpecial(Escape(s))) == s
  {
    QuotedRunEscaped(s, "");
    assert Escape(s) + ['"'] + "" == Escape(s) + ['"'];
    RawEscaped(s);
  }

  lemma RawEscaped(s: string)
    ensures var e := Escape(s); RawWord(e, Double, HasSpecial(e)) == s && QuotedWord(e, Double, HasSpecial(e)) == e
  {
    UnescapeEscape(s, '"');
    EscapeSpecial(s);
    if !HasSpecial(s) {
      EscapeNothing(s);
    }
  }

  lemma {:induction false} UnescapeNothing(s: string, quote: char)
    requires !HasSpecial(s)
    ensures Unescape(s, quote, false) == s
  {
    if s != "" {
      UnescapeNothing(s[1..], quote);
    }
  }

  lemma {:induction false} EscapeNothing(s: string)
    requires !HasSpecial(s)
    ensures Escape(s) == s
  {
    if s != "" {
      EscapeNothing(s[1..]);
    }
  }

  lemma {:induction false} EscapeSpecial(s: string)
    ensures HasSpecial(Escape(s)) <==> HasSpecial(s)
  {
    if s != "" {
      EscapeSpecial(s[1..]);
      if !Special(s[0]) {
        assert Escape(s)[1..] == Escape(s[1..]);
      }
    }
  }

  /**
   * Unescaping undoes escaping between double quotes for every text, and between single quotes
   * exactly for those without a double quote mark, whose slash it would leave.
   */
  lemma {:induction false} UnescapeEscape(s: string, quote: char)
    requires quote == '"' || quote == '\''
    ensures Unescape(Escape(s), quote, false) == s <==> quote == '"' || '"' !in s
  {
    if s != "" {
      var e := Escape(s);
      UnescapeEscape(s[1..], quote);
      assert s == [s[0]] + s[1..];
      if Special(s[0]) {
        assert e[1..][1..] == Escape(s[1..]);
      } else {
        assert e[1..] == Escape(s[1..]);
      }
    }
  }

  // What chop makes of a plain segment's printed form.
  function Reread(seg: Seg): Seg
    requires Textual(seg)
    decreases seg, 0
  {
    match seg
    case Word(input, quote, special) =>
      var q := QuotedWord(input, quote, special);
      Word(q, Double, HasSpecial(q))
    case Parent(children, wasArray) => Parent(RereadAll(children), wasArray)
  }

  function RereadAll(segs: seq<Seg>): (again: seq<Seg>)
    requires AllTextual(segs)
    ensures |again| == |segs|
    decreases segs, 0
  {
    if segs == [] then [] else [Reread(segs[0])] + RereadAll(segs[1..])
  }

  // Unless it is kept as it stood between double quotes, a word is quoted by escaping what it says.
  lemma QuotedIsEscaped(input: string, quote: Quote, special: bool)
    requires PlainWord(input, quote, special) && !(quote == Double && special)
    ensures QuotedWord(input, quote, special) == Escape(RawWord(input, quote, special))
  {
    if quote == Single && !special {
      UnescapeNothing(input, '\'');
    }
  }

  lemma RereadWord(input: string, quote: Quote, special: bool)
    requires PlainWord(input, quote, special)
    ensures var q := QuotedWord(input, quote, special);
            && Closed(q) && PlainWord(q, Double, HasSpecial(q))
            && RawWord(q, Double, HasSpecial(q)) == RawWord(input, quote, special)
            && QuotedWord(q, Double, HasSpecial(q)) == q
  {
    if !(quote == Double && special) {
      var raw := RawWord(input, quote, special);
      QuotedIsEscaped(input, quote, special);
      QuotedRunEscaped(raw, "");
      assert Escape(raw) + ['"'] + "" == Escape(raw) + ['"'];
      RawEscaped(raw);
    }
  }

  lemma {:induction false} RereadOne(seg: Seg)
    requires Plain(seg) && Textual(seg)
    ensures var again := Reread(seg);
            Textual(again) && Plain(again) && ShapeOf(again) == ShapeOf(seg) && Quoted(again) == Quoted(seg)
    decreases seg, 0
  {
    match seg
    case Word(input, quote, special) =>
      hide RawWord, QuotedWord, Escape, HasSpecial, PlainWord;
      RereadWord(input, quote, special);
    case Parent(children, arr) =>
      hide RawWord, QuotedWord, Escape, HasSpecial, Separator;
      RereadSame(children, arr, 0);
      assert AllTextual(RereadAll(children));
      assert Print(RereadAll(children), arr) == Print(children, arr);
  }

  lemma {:induction false} RereadSame(segs: seq<Seg>, wasArray: bool, i: nat)
    requires AllPlain(segs) && AllTextual(segs)
    ensures var again := RereadAll(segs);
            && AllTextual(again) && AllPlain(again)
            && Shapes(again) == Shapes(segs) && Items(again, wasArray, i) == Items(segs, wasArray, i)
    decreases segs, 1
  {
    hide RawWord, QuotedWord, Escape, HasSpecial, Separator;
    if segs != [] {
      var again := RereadAll(segs);
      assert Textual(segs[0]);
      RereadSame(segs[1..], wasArray, i + 1);
      assert again[1..] == RereadAll(segs[1..]);
      RereadOne(segs[0]);
      assert again == [again[0]] + again[1..];
    }
  }

  // ----- chop reads what the printer wrote

  // The quoted form of any text is read back whole: the run stops at the closing quote.
  lemma {:induction false} QuotedRunEscaped(raw: string, tail: string)
    ensures QuotedRun(Escape(raw) + ['"'] + tail, '"') == |Escape(raw)|
  {
    var e := Escape(raw);
    var s := e + ['"'] + tail;
    if raw != "" {
      QuotedRunEscaped(raw[1..], tail);
      if Special(raw[0]) {
        assert s[2..] == Escape(raw[1..]) + ['"'] + tail;
      } else {
        assert s[1..] == Escape(raw[1..]) + ['"'] + tail;
      }
    }
  }

  // One separator, then something that is not a delimiter: exactly the separator is passed.
  lemma DelimsSeparator(wasArray: bool, i: nat, s: string)
    requires s != "" && s[0] != ' ' && !IsDelim(s[0])
    ensures var t := Separator(wasArray, i) + s; Delims(t) == |Separator(wasArray, i)| && t[Delims(t)..] == s
  {
    var t := Separator(wasArray, i) + s;
    if i > 0 {
      assert t[1..] == s;
    } else {
      assert t == s;
    }
  }

  lemma DelimsNone(s: string)
    requires s != "" && s[0] != ' ' && !IsDelim(s[0])
    ensures Delims(s) == 0 && s[0..] == s
  {
  }

  lemma {:induction false} QuotedRunClosed(q: string, tail: string)
    requires Closed(q)
    ensures QuotedRun(q + ['"'] + tail, '"') == |q|
  {
    var s := q + ['"'] + tail;
    if q != "" {
      var step := if q[0] == '\\' then 2 else 1;
      assert (q + ['"'])[step..] == q[step..] + ['"'];
      assert s[step..] == q[step..] + ['"'] + tail;
      QuotedRunClosed(q[step..], tail);
    }
  }

  lemma OneClosed(q: string, more: string, closer: Option<char>, depth: nat)
    requires Closed(q)
    ensures One(['"'] + q + ['"'] + more, closer, depth) == Done([Word(q, Double, HasSpecial(q))], more)
  {
    var s := q + ['"'] + more;
    assert (['"'] + q + ['"'] + more)[1..] == s;
    QuotedRunClosed(q, more);
    assert s[..|q|] == q && s[|q| + 1..] == more;
  }

  lemma OneWord(raw: string, more: string, closer: Option<char>, depth: nat)
    ensures var e := Escape(raw);
            One(['"'] + e + ['"'] + more, closer, depth) == Done([Word(e, Double, HasSpecial(e))], more)
  {
    QuotedRunEscaped(raw, "");
    assert Escape(raw) + ['"'] + "" == Escape(raw) + ['"'];
    OneClosed(Escape(raw), more, closer, depth);
  }

  // What reading back the items of a list, followed by `tail`, must give.
  function Expected(segs: seq<Seg>, tail: string, depth: nat): Chopped
    requires AllTextual(segs)
  {
    if depth + Nest(segs) <= MAX_DEPTH then Done(RereadAll(segs), tail) else Fail(TooDeep)
  }

  lemma {:induction false} ScanItems(segs: seq<Seg>, wasArray: bool, i: nat, tail: string, depth: nat)
    requires AllPlain(segs) && AllTextual(segs) && depth <= MAX_DEPTH
    requires tail != "" && tail[0] == if wasArray then ']' else '}'
    requires |Items(segs, wasArray, i) + tail| <= MAX_TEXT
    ensures Scan(Items(segs, wasArray, i) + tail, Some(tail[0]), depth) == Expected(segs, tail, depth)
    decreases segs, 0
  {
    hide Escape, RawWord, QuotedWord, HasSpecial, One, Delims, Separator;
    var closer := Some(tail[0]);
    if segs == [] {
      DelimsNone(tail);
      assert "" + tail == tail;
    } else {
      assert Textual(segs[0]);
      var rest := Items(segs[1..], wasArray, i + 1) + tail;
      var first := Quoted(segs[0]) + rest;
      var s := Items(segs, wasArray, i) + tail;
      assert s == Separator(wasArray, i) + first;
      assert first[0] == Quoted(segs[0])[0];
      DelimsSeparator(wasArray, i, first);
      OneItem(segs[0], rest, closer, depth);
      ScanItems(segs[1..], wasArray, i + 1, tail, depth);
    }
  }

  lemma {:induction false} OneItem(seg: Seg, rest: string, closer: Option<char>, depth: nat)
    requires Plain(seg) && Textual(seg) && depth <= MAX_DEPTH
    requires |Quoted(seg) + rest| <= MAX_TEXT
    ensures var first := Quoted(seg);
            One(first + rest, closer, depth) ==
               if depth + NestOne(seg) <= MAX_DEPTH then Done([Reread(seg)], rest) else Fail(TooDeep)
    decreases seg, 1
  {
    hide One, RawWord, QuotedWord, Escape, HasSpecial, Separator, Delims, Items;
    match seg
    case Word(input, quote, special) =>
      var q := QuotedWord(input, quote, special);
      RereadWord(input, quote, special);
      OneClosed(q, rest, closer, depth);
      assert Quoted(seg) + rest == ['"'] + q + ['"'] + rest;
    case Parent(children, wasArray) =>
      var close := if wasArray then ']' else '}';
      var inner := Items(children, wasArray, 0) + ([close] + rest);
      if depth < MAX_DEPTH {
        ScanItems(children, wasArray, 0, [close] + rest, depth + 1);
      }
      OneParent(inner, wasArray, children, rest, closer, depth);
      assert Quoted(seg) + rest == [if wasArray then '[' else '{'] + inner;
  }

  // One pass over a bracket, given what its content reads as.
  lemma OneParent(inner: string, wasArray: bool, children: seq<Seg>, rest: string, closer: Option<char>, depth: nat)
    requires AllTextual(children) && depth <= MAX_DEPTH && 0 < |inner| <= MAX_TEXT
    requires var close := if wasArray then ']' else '}';
             depth < MAX_DEPTH ==> Scan(inner, Some(close), depth + 1) == Expected(children, [close] + rest, depth + 1)
    ensures One([if wasArray then '[' else '{'] + inner, closer, depth) ==
            if depth + 1 + Nest(children) <= MAX_DEPTH then Done([Parent(RereadAll(children), wasArray)], rest)
            else Fail(TooDeep)
  {
    hide Scan, RereadAll, Nest, Textual;
    var close := if wasArray then ']' else '}';
    assert ([if wasArray then '[' else '{'] + inner)[1..] == inner;
    assert Drop([close] + rest, 1) == rest;
  }

  /**
   * Printer and parser undo each other, exactly within the limits: for a non-empty list of
   * plain texts and nested lists, Chop reads its printed form if and only if that has at most
   * 16384 bytes and is at most 16 brackets deep; and then it gives back a list with the same
   * shape, bracket kinds and raw texts, which prints the same again.
   */
  lemma RoundTrip(segs: seq<Seg>)
    requires segs != [] && AllPlain(segs) && AllTextual(segs)
    ensures var r := Chop(ToString(segs));
            && (r.Ok? <==> |ToString(segs)| <= 16384 && Nest(segs) + 1 <= 16)
            && (r.Ok? ==> AllTextual(r.value) && Shapes(r.value) == Shapes(segs) && ToString(r.value) == ToString(segs))
  {
    hide One, Delims, Plain, RawWord, QuotedWord, Escape, HasSpecial, Separator, Items, Shapes;
    var text := ToString(segs);
    if |text| <= MAX_TEXT {
      DelimsNone(text);
      WholeText(segs);
      assert Scan("", None, 0) == Done([], "");
      var one := One(text, None, 0);
      assert Chop0(text, None, 0) == if one.Fail? then one else Prepend(one.segs, Scan(one.rest, None, 0));
      RereadSame(segs, true, 0);
    }
  }

  lemma WholeText(segs: seq<Seg>)
    requires AllPlain(segs) && AllTextual(segs) && |ToString(segs)| <= MAX_TEXT
    ensures One(ToString(segs), None, 0) ==
            if 1 + Nest(segs) <= MAX_DEPTH then Done([Parent(RereadAll(segs), true)], "") else Fail(TooDeep)
  {
    hide One, Items, RawWord, QuotedWord, Escape, HasSpecial, Separator;
    var whole := Parent(segs, true);
    assert Plain(whole) && Textual(whole);
    OneItem(whole, "", None, 0);
    assert Quoted(whole) + "" == ToString(segs);
  }
}

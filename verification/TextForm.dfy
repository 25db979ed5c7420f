// The printable form of a packet (packets/packets.go:497-545) and what the text chopper makes
// of it. Arguments are 7-bit strings, one char per byte.
module TextForm {
  import opened Common
  import opened BadJson
  import opened Printing

  const COMMANDS := "PSULCDH"

  predicate Ascii(s: string) {
    forall i :: 0 <= i < |s| ==> s[i] < 128 as char
  }

  predicate Printable(c: char) {
    32 as char <= c <= 127 as char
  }

  predicate OddStart(c: char) {
    c in "\",: $=[{"
  }

  predicate Breaks(c: char) {
    c in " :,"
  }

  /** IsASCII: whether every byte is printable, and whether the text would need quotes. */
  method IsASCII(s: string) returns (isascii: bool, hasdelimeters: bool)
    ensures isascii <==> forall i :: 0 <= i < |s| ==> Printable(s[i])
    ensures hasdelimeters <==>
            (s != "" && OddStart(s[0])) || exists i :: 0 <= i < |s| && Printable(s[i]) && Breaks(s[i])
  {
    isascii, hasdelimeters := true, s != "" && OddStart(s[0]);
    for i := 0 to |s|
      invariant isascii <==> forall j :: 0 <= j < i ==> Printable(s[j])
      invariant hasdelimeters <==>
                (s != "" && OddStart(s[0])) || exists j :: 0 <= j < i && Printable(s[j]) && Breaks(s[j])
    {
      if !Printable(s[i]) {
        isascii := false;
      } else if Breaks(s[i]) {
        hasdelimeters := true;
      }
    }
  }

  // A 7-bit argument is printed in quotes if it needs them or has control characters (which
  // are valid UTF-8), and bare otherwise.
  predicate InQuotes(arg: string) {
    || (exists i :: 0 <= i < |arg| && !Printable(arg[i]))
    || (arg != "" && OddStart(arg[0]))
    || (exists i :: 0 <= i < |arg| && Breaks(arg[i]))
  }

  predicate Printed(arg: string) {
    Ascii(arg) && (arg != "" ==> arg[0] != 0 as char)
  }

  /** What UniversalToJSON writes for one argument that does not start with a NUL. */
  function ArgText(arg: string): string {
    if arg == "" then "" else if InQuotes(arg) then ['"'] + Escape(arg) + ['"'] else arg
  }

  /** The arguments, each after its comma, and the closing bracket. */
  function ArgsText(args: seq<string>): string
  {
    if args == [] then "]" else [','] + ArgText(args[0]) + ArgsText(args[1..])
  }

  function UniversalToJSON(cmd: char, args: seq<string>): string {
    ['['] + [cmd] + ArgsText(args)
  }

  /** UniversalToJSON's branches, on what IsASCII answers. */
  method WriteArg(arg: string) returns (text: string)
    requires Printed(arg)
    ensures text == ArgText(arg)
    ensures text == arg || text == ['"'] + Escape(arg) + ['"']
    ensures text == arg <==> StaysBare(arg)
  {
    EscapeLonger(arg);
    if arg == "" {
      return "";
    }
    var isascii, hasdelimeters := IsASCII(arg);
    assert arg[0] in arg;
    if isascii && !hasdelimeters {
      text := arg;
    } else {
      text := ['"'] + Escape(arg) + ['"'];
    }
  }

  // Printable throughout, without a space, comma or colon, and not starting like something else.
  predicate StaysBare(arg: string) {
    && (forall i :: 0 <= i < |arg| ==> 32 as char <= arg[i] <= 127 as char && arg[i] !in " ,:")
    && (arg != "" ==> arg[0] !in "\"$=[{")
  }

  lemma {:induction false} EscapeLonger(s: string)
    ensures |Escape(s)| >= |s|
  {
    if s != "" {
      EscapeLonger(s[1..]);
    }
  }

  // ----- reading it back

  // Arguments that survive: those in quotes, and bare ones without `]` or a leading quote mark.
  predicate Readable(arg: string) {
    arg == "" || InQuotes(arg) || (']' !in arg && arg[0] != '\'')
  }

  predicate AllReadable(args: seq<string>)
  {
    args == [] || (Readable(args[0]) && AllReadable(args[1..]))
  }

  predicate Survives(args: seq<string>) {
    AllReadable(args) && (args != [] ==> args[|args| - 1] != "")
  }

  // The segments are words that say exactly `args`.
  predicate Says(segs: seq<Seg>, args: seq<string>) {
    && |segs| == |args|
    && forall k :: 0 <= k < |segs| ==>
         segs[k].Word? && RawWord(segs[k].input, segs[k].quote, segs[k].special) == args[k]
  }

  function WordOf(arg: string): Seg {
    if arg != "" && InQuotes(arg) then Word(Escape(arg), Double, HasSpecial(Escape(arg)))
    else Word(arg, Bare, HasSpecial(arg))
  }

  lemma WordSays(arg: string)
    ensures var w := WordOf(arg); RawWord(w.input, w.quote, w.special) == arg
  {
    if arg != "" && InQuotes(arg) {
      UnescapeEscape(arg, '"');
      EscapeSpecial(arg);
      if !HasSpecial(arg) {
        EscapeNothing(arg);
      }
    }
  }

  lemma {:induction false} WordRunBare(arg: string, more: string, closer: Option<char>)
    requires forall i :: 0 <= i < |arg| ==> !EndsWord(arg[i], closer)
    requires more != "" && EndsWord(more[0], closer)
    ensures WordRun(arg + more, closer) == |arg|
  {
    if arg == "" {
      assert arg + more == more;
    } else {
      WordRunBare(arg[1..], more, closer);
      assert (arg + more)[1..] == arg[1..] + more;
    }
  }

  lemma ArgsStart(args: seq<string>)
    ensures var t := ArgsText(args); t != "" && t[0] == if args == [] then ']' else ','
  {
  }

  const CLOSE := Some(']')

  lemma DelimsComma(t: string)
    requires t == "" || t[0] != ' '
    ensures Delims([','] + t) == 1 && ([','] + t)[1..] == t
  {
    var s := [','] + t;
    assert s[1..] == t;
    assert Spaces(s) == 0 && Spaces(t) == 0;
  }

  lemma ArgsCons(arg: string, rest: seq<string>)
    ensures ArgsText([arg] + rest) == [','] + (ArgText(arg) + ArgsText(rest))
  {
    hide ArgText;
    assert ([arg] + rest)[1..] == rest;
  }

  lemma ScanComma(t: string, depth: nat)
    requires t != "" && t[0] != ' ' && t[0] != ']'
    ensures var c := One(t, CLOSE, depth);
            Scan([','] + t, CLOSE, depth) == if c.Fail? then c else Prepend(c.segs, Scan(c.rest, CLOSE, depth))
  {
    hide One, Delims;
    DelimsComma(t);
  }

  lemma OneArg(arg: string, more: string, depth: nat)
    requires Readable(arg) && more != "" && EndsWord(more[0], CLOSE) && (arg == "" ==> more[0] == ',')
    ensures var t := ArgText(arg) + more;
            One(t, CLOSE, depth) == Done([WordOf(arg)], more) && t[0] != ' ' && t[0] != ']'
  {
    hide One, HasSpecial, Escape;
    var t := ArgText(arg) + more;
    if arg == "" {
      assert t == more;
      EmptyWord(more, depth);
    } else if InQuotes(arg) {
      OneWord(arg, more, CLOSE, depth);
      assert t == ['"'] + Escape(arg) + ['"'] + more;
    } else {
      assert arg[0] in arg && t[0] == arg[0];
      BareWord(arg, more, depth);
    }
  }

  // A readable argument is cut off as one word, unless it is empty with nothing after it.
  lemma ReadOne(arg: string, rest: seq<string>, depth: nat)
    requires Readable(arg) && (arg == "" ==> rest != [])
    ensures Scan(ArgsText([arg] + rest), CLOSE, depth) == Prepend([WordOf(arg)], Scan(ArgsText(rest), CLOSE, depth))
  {
    hide Scan, One, ArgText, WordOf, Readable, ArgsText;
    ArgsStart(rest);
    ArgsCons(arg, rest);
    OneArg(arg, ArgsText(rest), depth);
    ScanComma(ArgText(arg) + ArgsText(rest), depth);
  }

  lemma EmptyWord(t: string, depth: nat)
    requires t != "" && t[0] == ','
    ensures One(t, CLOSE, depth) == Done([WordOf("")], t)
  {
  }

  lemma BareWord(arg: string, more: string, depth: nat)
    requires arg != "" && !InQuotes(arg) && ']' !in arg && arg[0] != '\''
    requires more != "" && EndsWord(more[0], CLOSE)
    ensures One(arg + more, CLOSE, depth) == Done([Word(arg, Bare, HasSpecial(arg))], more)
  {
    hide Scan, HasSpecial;
    forall i | 0 <= i < |arg| ensures !EndsWord(arg[i], CLOSE) {
      assert arg[i] in arg;
    }
    WordRunBare(arg, more, CLOSE);
    assert (arg + more)[..|arg|] == arg && (arg + more)[|arg|..] == more;
    assert (arg + more)[0] == arg[0];
  }

  // ----- arguments that do not survive

  lemma {:induction false} UnescapeShorter(s: string, quote: char, passed: bool)
    ensures |Unescape(s, quote, passed)| <= |s| + if passed then 1 else 0
  {
    if s != "" {
      UnescapeShorter(s[1..], quote, s[0] == '\\' && !passed);
    }
  }

  lemma {:induction false} UnescapeKeeps(s: string, quote: char, passed: bool, c: char)
    requires c in s && c != '\\'
    ensures c in Unescape(s, quote, passed)
  {
    var next := s[0] == '\\' && !passed;
    if c in s[1..] {
      UnescapeKeeps(s[1..], quote, next, c);
    } else {
      assert s == [s[0]] + s[1..];
    }
  }

  // A text that does not begin with the quote mark unescapes to one that does only by losing
  // the backslash before it.
  lemma UnescapeToQuote(s: string, quote: char)
    requires s != "" && s[0] != quote && quote != '\\'
    requires Unescape(s, quote, false) != "" && Unescape(s, quote, false)[0] == quote
    ensures |Unescape(s, quote, false)| < |s|
  {
    if |s| > 1 {
      UnescapeShorter(s[1..][1..], quote, false);
    }
  }

  // A bare argument that starts with a quote mark is read as something else.
  lemma ReadApostrophe(arg: string, more: string, depth: nat)
    requires arg != "" && !InQuotes(arg) && arg[0] == '\''
    requires more == "]" || (more != "" && more[0] == ',')
    ensures var c := One(arg + more, CLOSE, depth);
            && c.Done? && |c.segs| == 1 && c.segs[0].Word?
            && RawWord(c.segs[0].input, c.segs[0].quote, c.segs[0].special) != arg
  {
    hide Scan, Chop0, HexRun, B64Run, EqualsRun, WordRun, QuotedRun;
    var s := arg[1..] + more;
    assert (arg + more)[1..] == s;
    var n := QuotedRun(s, '\'');
    assert One(arg + more, CLOSE, depth) == Done([Word(s[..n], Single, HasSpecial(s[..n]))], Drop(s, n + 1));
    RawDiffers(arg, more, n);
  }

  lemma RawDiffers(arg: string, more: string, n: nat)
    requires arg != "" && !InQuotes(arg) && arg[0] == '\''
    requires more == "]" || (more != "" && more[0] == ',')
    requires var s := arg[1..] + more; n == QuotedRun(s, '\'')
    ensures var input := (arg[1..] + more)[..n]; RawWord(input, Single, HasSpecial(input)) != arg
  {
    hide HasSpecial;
    var s := arg[1..] + more;
    var input := s[..n];
    UnescapeShorter(input, '\'', false);
    if n >= |arg| && more[0] == ',' {
      assert input[|arg| - 1] == ',';
      UnescapeKeeps(input, '\'', false, ',');
      assert ',' !in arg;
    } else if n > 0 {
      assert input[0] == s[0] != '\'';
      var raw := Unescape(input, '\'', false);
      if raw == arg {
        UnescapeToQuote(input, '\'');
      }
    }
  }

  // A bare argument with a closing bracket in it ends the list early.
  lemma ReadBracket(arg: string, more: string, depth: nat)
    requires arg != "" && !InQuotes(arg) && arg[0] != '\'' && ']' in arg && more != ""
    ensures var c := Scan(arg + more, CLOSE, depth); c.Done? && |c.rest| > 1
  {
    hide Scan, One, Delims, InQuotes, WordRun, HasSpecial;
    var m := FirstBracket(arg);
    var t, rest := arg + more, arg[m..] + more;
    assert t[0] == arg[0] && rest[0] == ']' && |rest| > 1;
    assert arg[0] != ' ' && !IsDelim(arg[0]) by { assert !OddStart(arg[0]) by { NotOdd(arg); } }
    StopsThere(rest, depth);
    if m == 0 {
      assert rest == t;
    } else {
      assert !InQuotes(arg[..m]) by { StillBare(arg, m); }
      assert arg[..m][0] == arg[0] && arg[..m] + rest == t;
      BareWord(arg[..m], rest, depth);
      DelimsNone(t);
      ScanWord(t, depth);
    }
  }

  lemma NotOdd(arg: string)
    requires arg != "" && !InQuotes(arg)
    ensures !OddStart(arg[0])
  {
  }

  lemma StillBare(arg: string, m: nat)
    requires !InQuotes(arg) && 0 < m <= |arg|
    ensures !InQuotes(arg[..m])
  {
    var w := arg[..m];
    assert forall i :: 0 <= i < m ==> w[i] == arg[i];
  }

  lemma StopsThere(rest: string, depth: nat)
    requires rest != "" && rest[0] == ']'
    ensures Scan(rest, CLOSE, depth) == Done([], rest)
  {
    hide One, Delims;
    DelimsNone(rest);
    assert rest[0..] == rest;
  }

  lemma ScanWord(t: string, depth: nat)
    requires t != "" && Delims(t) == 0 && t[0] != ']'
    ensures var c := One(t, CLOSE, depth);
            Scan(t, CLOSE, depth) == if c.Fail? then c else Prepend(c.segs, Scan(c.rest, CLOSE, depth))
  {
    hide One, Delims;
    assert t[0..] == t;
  }

  lemma FirstBracket(arg: string) returns (m: nat)
    requires ']' in arg
    ensures m < |arg| && arg[m] == ']' && ']' !in arg[..m]
  {
    m := 0;
    while arg[m] != ']'
      invariant m < |arg| && ']' !in arg[..m] && ']' in arg[m..]
      decreases |arg| - m
    {
      assert arg[..m + 1] == arg[..m] + [arg[m]];
      assert arg[m..] == [arg[m]] + arg[m + 1..];
      m := m + 1;
    }
  }

  // What the inside of the brackets reads as when nothing went wrong.
  ghost predicate Clean(c: Chopped, args: seq<string>) {
    c.Done? && |c.rest| <= 1 && Says(c.segs, args)
  }

  /** The arguments survive being printed and read if and only if Survives. */
  lemma {:induction false} ReadArgs(args: seq<string>, depth: nat)
    requires forall a :: a in args ==> Printed(a)
    ensures Clean(Scan(ArgsText(args), CLOSE, depth), args) <==> Survives(args)
    decreases |args|
  {
    hide Scan, WordOf, InQuotes, RawWord, Printed, ArgText;
    if args == [] {
      NothingLeft(depth);
    } else {
      var arg, rest := args[0], args[1..];
      assert args == [arg] + rest;
      assert arg in args && forall a :: a in rest ==> a in args;
      ReadArgs(rest, depth);
      ArgsStart(rest);
      if Readable(arg) && (arg == "" ==> rest != []) {
        ReadOne(arg, rest, depth);
        WordSays(arg);
        WordIsWord(arg);
        SaysCons(WordOf(arg), arg, Scan(ArgsText(rest), CLOSE, depth), rest);
      } else {
        ReadBad(arg, rest, depth);
      }
    }
  }

  lemma NothingLeft(depth: nat)
    ensures Scan("]", CLOSE, depth) == Done([], "]")
  {
    assert Delims("]") == 0;
  }

  lemma WordIsWord(arg: string)
    ensures WordOf(arg).Word?
  {
  }

  lemma SaysCons(w: Seg, arg: string, c: Chopped, rest: seq<string>)
    requires w.Word? && RawWord(w.input, w.quote, w.special) == arg
    ensures Clean(Prepend([w], c), [arg] + rest) <==> Clean(c, rest)
  {
    hide RawWord;
    if c.Done? {
      assert [w] + c.segs == (Prepend([w], c)).segs;
      if Says([w] + c.segs, [arg] + rest) {
        forall k | 0 <= k < |c.segs|
          ensures c.segs[k].Word? && RawWord(c.segs[k].input, c.segs[k].quote, c.segs[k].special) == rest[k]
        {
          assert ([w] + c.segs)[k + 1] == c.segs[k] && ([arg] + rest)[k + 1] == rest[k];
        }
      }
    }
  }

  lemma ReadBad(arg: string, rest: seq<string>, depth: nat)
    requires !(Readable(arg) && (arg == "" ==> rest != []))
    ensures !Clean(Scan(ArgsText([arg] + rest), CLOSE, depth), [arg] + rest)
  {
    hide Escape, HasSpecial, One, Delims, RawWord;
    var more := ArgsText(rest);
    ArgsStart(rest);
    var t := ArgText(arg) + more;
    assert ([arg] + rest)[1..] == rest;
    assert ArgsText([arg] + rest) == [','] + t;
    if arg == "" {
      assert t == more;
      DelimsComma(t);
    } else {
      assert t[0] == arg[0] && arg[0] in arg;
      DelimsComma(t);
      if arg[0] == '\'' {
        assert rest != [] || more == "]";
        ReadApostrophe(arg, more, depth);
        var c := One(t, CLOSE, depth);
        NotSaid(c.segs[0], arg, Scan(c.rest, CLOSE, depth), rest);
      } else {
        ReadBracket(arg, more, depth);
        DelimsNone(t);
        assert Scan([','] + t, CLOSE, depth) == Scan(t, CLOSE, depth);
      }
    }
  }

  lemma NotSaid(w: Seg, arg: string, c: Chopped, rest: seq<string>)
    requires w.Word? && RawWord(w.input, w.quote, w.special) != arg
    ensures !Clean(Prepend([w], c), [arg] + rest)
  {
    hide RawWord;
    if c.Done? {
      assert ([w] + c.segs)[0] == w && ([arg] + rest)[0] == arg;
    }
  }

  // ----- the whole line

  // Text after the list's own bracket makes at least one more segment.
  lemma MoreText(s: string, depth: nat)
    requires s != "" && s[|s| - 1] == ']'
    ensures var c := Scan(s, None, depth); c.Done? ==> c.segs != []
  {
    hide Scan, Chop0, HexRun, B64Run, EqualsRun, WordRun, QuotedRun, HasSpecial;
    var t := s[Delims(s)..];
    LastNotDelim(s);
    assert t != "" && t[|t| - 1] == ']';
    ScanUnfold(s, depth);
  }

  ghost function GoOn(c: Chopped, depth: nat): Chopped {
    if c.Fail? then c else Prepend(c.segs, Scan(c.rest, None, depth))
  }

  lemma ScanUnfold(s: string, depth: nat)
    requires s[Delims(s)..] != ""
    ensures Scan(s, None, depth) == GoOn(One(s[Delims(s)..], None, depth), depth)
  {
    hide One, Delims;
  }

  lemma {:induction false} SpacesBefore(s: string, c: char)
    requires s != "" && s[|s| - 1] == c && c != ' '
    ensures Spaces(s) < |s|
  {
    if s[0] == ' ' {
      SpacesBefore(s[1..], c);
    }
  }

  lemma LastNotDelim(s: string)
    requires s != "" && s[|s| - 1] == ']'
    ensures Delims(s) < |s|
  {
    SpacesBefore(s, ']');
    var n := Spaces(s);
    if IsDelim(s[n]) {
      SpacesBefore(s[n + 1..], ']');
    }
  }

  lemma {:induction false} ArgsTextEnds(args: seq<string>)
    ensures var t := ArgsText(args); t != "" && t[|t| - 1] == ']'
  {
    hide ArgText;
    if args != [] {
      ArgsTextEnds(args[1..]);
    }
  }

  lemma ReadCommand(cmd: char, args: seq<string>)
    requires cmd in COMMANDS
    ensures Scan([cmd] + ArgsText(args), CLOSE, 1) ==
            Prepend([Word([cmd], Bare, false)], Scan(ArgsText(args), CLOSE, 1))
  {
    hide ArgsText, One, Delims;
    var more, s := ArgsText(args), [cmd] + ArgsText(args);
    ArgsStart(args);
    DelimsNone(s);
    BareWord([cmd], more, 1);
    assert !HasSpecial([cmd]) by { assert [cmd][1..] == ""; }
  }

  /** Whether a parse result is the command letter followed by exactly the bytes of each argument. */
  ghost predicate Yields(r: Result<seq<Seg>>, cmd: char, args: seq<string>) {
    r.Ok? && Says(r.value, [[cmd]] + args)
  }

  // Chop on a bracketed text, given what its inside reads as: text behind the bracket spoils it.
  lemma ChopBrackets(inner: string, want: seq<string>)
    requires inner != "" && |inner| < MAX_TEXT && inner[|inner| - 1] == ']' && want != []
    ensures var c := Scan(inner, CLOSE, 1);
            var r := Chop(['['] + inner);
            r.Ok? && Says(r.value, want) <==> Clean(c, want)
  {
    hide Scan, One, Delims, RawWord, Says;
    var text := ['['] + inner;
    var c := Scan(inner, CLOSE, 1);
    OpeningBracket(inner);
    DelimsNone(text);
    ScanUnfold(text, 0);
    if c.Done? {
      if |c.rest| > 1 {
        BehindBracket(inner, c, want);
      } else {
        assert Scan("", None, 0) == Done([], "") by { EmptyScan(); }
        NothingBehind(Parent(c.segs, true), c.segs, want);
      }
    }
  }

  lemma OpeningBracket(inner: string)
    requires inner != "" && |inner| < MAX_TEXT
    ensures var c := Scan(inner, CLOSE, 1);
            One(['['] + inner, None, 0) == if c.Fail? then c else Done([Parent(c.segs, true)], Drop(c.rest, 1))
  {
    hide Scan, HexRun, B64Run, EqualsRun, WordRun, QuotedRun, HasSpecial;
    assert (['['] + inner)[1..] == inner;
  }

  lemma BehindBracket(inner: string, c: Chopped, want: seq<string>)
    requires inner != "" && inner[|inner| - 1] == ']' && c == Scan(inner, CLOSE, 1) && c.Done? && |c.rest| > 1
    ensures var d := Prepend([Parent(c.segs, true)], Scan(Drop(c.rest, 1), None, 0));
            d.Done? ==> |d.segs| > 1 && !Says(d.segs, want)
  {
    hide Scan, RawWord;
    ScanStops(inner, CLOSE, 1);
    var after := Drop(c.rest, 1);
    assert after[|after| - 1] == ']';
    MoreText(after, 0);
    Beside(Parent(c.segs, true), Scan(after, None, 0), want);
  }

  lemma NothingBehind(p: Seg, segs: seq<Seg>, want: seq<string>)
    requires p == Parent(segs, true) && want != []
    ensures [p] + [] == [p] && (Says(if segs == [] then [p] else segs, want) <==> Says(segs, want))
  {
    hide RawWord;
    if segs == [] {
      assert [p][0].Parent?;
    }
  }

  lemma Beside(p: Seg, c: Chopped, want: seq<string>)
    requires p.Parent? && (c.Done? ==> c.segs != [])
    ensures var d := Prepend([p], c); d.Done? ==> |d.segs| > 1 && !Says(d.segs, want)
  {
    if c.Done? {
      assert ([p] + c.segs)[0] == p;
    }
  }

  /**
   * The printed form of a packet, if it has at most 16384 bytes, is chopped into the command
   * letter and then each argument's exact bytes if and only if no bare argument has a `]` or
   * starts with a quote mark, and the last argument is not empty.
   */
  lemma TextRoundTrip(cmd: char, args: seq<string>)
    requires cmd in COMMANDS && forall a :: a in args ==> Printed(a)
    requires |UniversalToJSON(cmd, args)| <= 16384
    ensures Yields(Chop(UniversalToJSON(cmd, args)), cmd, args) <==> Survives(args)
  {
    hide Scan, Survives, ArgsText, Printed, Says, Chop;
    var inner := [cmd] + ArgsText(args);
    assert UniversalToJSON(cmd, args) == ['['] + inner;
    ArgsTextEnds(args);
    ChopBrackets(inner, [[cmd]] + args);
    ReadCommand(cmd, args);
    ReadArgs(args, 1);
    SaysCons(Word([cmd], Bare, false), [cmd], Scan(ArgsText(args), CLOSE, 1), args);
  }
}

// badjson/parse.go: the text chopper and the printer. Text is ASCII, one char per byte.
module BadJson {
  import opened Common

  const MAX_TEXT := 16 * 1024
  const MAX_DEPTH := 16

  datatype Quote = Bare | Single | Double

  // RuneArray, HexBytes, Base64Bytes and Parent; a linked list of segments is a sequence.
  // `special` is hadQuoteOrSlash.
  datatype Seg =
    | Word(input: string, quote: Quote, special: bool)
    | Hex(input: string)
    | B64(input: string)
    | Parent(children: seq<Seg>, wasArray: bool)

  datatype ChopError = TooLong | TooDeep

  // What chop returns: the segments and the text it left, or an error.
  datatype Chopped = Done(segs: seq<Seg>, rest: string) | Fail(error: ChopError)

  predicate IsDelim(c: char) {
    c == ',' || c == ':'
  }

  // HexMap also has values for the character after '9' and for g and G.
  predicate IsHex(c: char) {
    '0' <= c <= ':' || 'a' <= c <= 'g' || 'A' <= c <= 'G'
  }

  predicate IsB64(c: char) {
    'A' <= c <= 'Z' || 'a' <= c <= 'z' || '0' <= c <= '9' || c == '+' || c == '/' || c == '-' || c == '_'
  }

  predicate EndsWord(c: char, closer: Option<char>) {
    c == ' ' || IsDelim(c) || Some(c) == closer
  }

  predicate Special(c: char) {
    c == '"' || c == '\\'
  }

  predicate HasSpecial(s: string)
  {
    s != "" && (Special(s[0]) || HasSpecial(s[1..]))
  }

  // ----- lengths of the runs that the loops of chop pass over

  function Spaces(s: string): (n: nat)
    ensures n <= |s| && (n < |s| ==> s[n] != ' ')
  {
    if s != "" && s[0] == ' ' then 1 + Spaces(s[1..]) else 0
  }

  /** The delimiters before a segment: spaces, at most one comma or colon, spaces. */
  function Delims(s: string): (n: nat)
    ensures n <= |s| && (n < |s| ==> s[n] != ' ')
    ensures n < |s| && IsDelim(s[n]) ==> n > 0
  {
    var n := Spaces(s);
    if n < |s| && IsDelim(s[n]) then n + 1 + Spaces(s[n + 1..]) else n
  }

  function HexRun(s: string): (n: nat)
    ensures n <= |s|
  {
    if s != "" && IsHex(s[0]) then 1 + HexRun(s[1..]) else 0
  }

  function B64Run(s: string): (n: nat)
    ensures n <= |s|
  {
    if s != "" && IsB64(s[0]) then 1 + B64Run(s[1..]) else 0
  }

  function EqualsRun(s: string): (n: nat)
    ensures n <= |s|
  {
    if s != "" && s[0] == '=' then 1 + EqualsRun(s[1..]) else 0
  }

  function WordRun(s: string, closer: Option<char>): (n: nat)
    ensures n <= |s|
  {
    if s != "" && !EndsWord(s[0], closer) then 1 + WordRun(s[1..], closer) else 0
  }

  /** Up to the closing quote, a backslash taking the next character with it; or to the end. */
  function QuotedRun(s: string, quote: char): (n: nat)
    ensures n <= |s|
  {
    if s == "" || s[0] == quote then 0
    else if s[0] == '\\' then (if |s| == 1 then 1 else 2 + QuotedRun(s[2..], quote))
    else 1 + QuotedRun(s[1..], quote)
  }

  function Drop(s: string, n: nat): string {
    if n <= |s| then s[n..] else ""
  }

  // ----- chop

  /** chop: cut `s` into segments up to `closer` (None at the top, where nothing closes). */
  function Chop0(s: string, closer: Option<char>, depth: nat): (c: Chopped)
    ensures c.Done? ==> |c.rest| <= |s|
    decreases |s|, 2
  {
    if |s| > MAX_TEXT then Fail(TooLong)
    else if depth > MAX_DEPTH then Fail(TooDeep)
    else Scan(s, closer, depth)
  }

  /** The outer loop of chop, from the text that remains. */
  function Scan(s: string, closer: Option<char>, depth: nat): (c: Chopped)
    ensures c.Done? ==> |c.rest| <= |s|
    decreases |s|, 1
  {
    var t := s[Delims(s)..];
    if t == "" || Some(t[0]) == closer then Done([], t)
    else
      match One(t, closer, depth)
      case Fail(e) => Fail(e)
      case Done(segs, rest) => Prepend(segs, Scan(rest, closer, depth))
  }

  function Prepend(segs: seq<Seg>, c: Chopped): Chopped {
    match c
    case Fail(e) => Fail(e)
    case Done(more, rest) => Done(segs + more, rest)
  }

  function Closer(open: char): char {
    if open == '{' then '}' else ']'
  }

  /** One pass of the switch: at most one segment, and the text after it. */
  function One(t: string, closer: Option<char>, depth: nat): (c: Chopped)
    requires t != ""
    ensures c.Done? ==> |c.rest| <= |t|
    ensures c.Done? && !EndsWord(t[0], closer) ==> |c.rest| < |t|
    decreases |t|, 0
  {
    var first, s := t[0], t[1..];
    if first == '$' then
      Done([Hex(s[..HexRun(s)])], s[HexRun(s)..])
    else if first == '"' || first == '\'' then
      if s == "" then Done([], "")
      else
        var n := QuotedRun(s, first);
        Done([Word(s[..n], if first == '"' then Double else Single, HasSpecial(s[..n]))], Drop(s, n + 1))
    else if first == '=' then
      if s == "" then Done([B64("=")], "")
      else
        var n := B64Run(s) + EqualsRun(s[B64Run(s)..]);
        Done([B64(s[..n])], s[n..])
    else if first == '{' || first == '[' then
      if s == "" then Done([], "")
      else
        match Chop0(s, Some(Closer(first)), depth + 1)
        case Fail(e) => Fail(e)
        case Done(children, rest) =>
          Done([Parent(children, first == '[')], Drop(rest, 1))
    else
      var n := WordRun(t, closer);
      Done([Word(t[..n], Bare, HasSpecial(t[..n]))], t[n..])
  }

  /** Chop: the list of segments; a lone non-empty `[...]` stands for its content. */
  function Chop(text: string): Result<seq<Seg>> {
    match Chop0(text, None, 0)
    case Fail(TooLong) => Err("is longer than 16k")
    case Fail(TooDeep) => Err("recursed 16 deep")
    case Done(segs, _) =>
      if segs == [] then Ok([Word("", Bare, false)])
      else if |segs| == 1 && segs[0].Parent? && segs[0].wasArray && segs[0].children != [] then Ok(segs[0].children)
      else Ok(segs)
  }

  lemma EmptyScan()
    ensures forall closer, depth :: Scan("", closer, depth) == Done([], "")
  {
    assert Delims("") == 0;
  }

  // ----- where chop stops

  predicate Stopped(s: string, closer: Option<char>, rest: string) {
    Suffix(s, rest) && (rest == "" || Some(rest[0]) == closer)
  }

  predicate Suffix(s: string, rest: string) {
    |rest| <= |s| && rest == s[|s| - |rest|..]
  }

  lemma SuffixTrans(s: string, t: string, rest: string)
    requires Suffix(s, t) && Suffix(t, rest)
    ensures Suffix(s, rest)
  {
  }

  lemma {:induction false} ScanStops(s: string, closer: Option<char>, depth: nat)
    ensures var c := Scan(s, closer, depth); c.Done? ==> Stopped(s, closer, c.rest)
    decreases |s|, 1
  {
    hide One, Delims;
    var t := s[Delims(s)..];
    if t != "" && Some(t[0]) != closer {
      OneStops(t, closer, depth);
      match One(t, closer, depth)
      case Fail(_) =>
      case Done(segs, rest) =>
        SuffixTrans(s, t, rest);
        ScanStops(rest, closer, depth);
        var c := Scan(rest, closer, depth);
        if c.Done? {
          SuffixTrans(s, rest, c.rest);
        }
    }
  }

  lemma DropSuffix(s: string, n: nat)
    ensures Suffix(s, Drop(s, n))
  {
  }

  lemma TailSuffix(t: string, rest: string)
    requires t != "" && Suffix(t[1..], rest)
    ensures Suffix(t, rest)
  {
  }

  lemma {:induction false} OneStops(t: string, closer: Option<char>, depth: nat)
    requires t != ""
    ensures var c := One(t, closer, depth); c.Done? ==> Suffix(t, c.rest)
    decreases |t|, 0
  {
    hide Scan, HexRun, B64Run, EqualsRun, QuotedRun, WordRun, HasSpecial, Suffix;
    var first, s := t[0], t[1..];
    var c := One(t, closer, depth);
    DropSuffix(t, |t|);
    if first == '$' {
      DropSuffix(s, HexRun(s));
    } else if first == '"' || first == '\'' {
      DropSuffix(s, QuotedRun(s, first) + 1);
      DropSuffix(s, |s|);
    } else if first == '=' {
      DropSuffix(s, B64Run(s) + EqualsRun(s[B64Run(s)..]));
    } else if first == '{' || first == '[' {
      if s != "" && c.Done? {
        ScanStops(s, Some(Closer(first)), depth + 1);
        var inner := Chop0(s, Some(Closer(first)), depth + 1).rest;
        DropSuffix(inner, 1);
        SuffixTrans(s, inner, c.rest);
      }
    } else {
      DropSuffix(t, WordRun(t, closer));
      return;
    }
    if c.Done? && s != "" {
      TailSuffix(t, c.rest);
    } else if first == '$' {
      TailSuffix(t, c.rest);
    }
  }

  /**
   * Error-free, chop stops at its closer or at the end of the text, so at the top level it
   * consumes everything; it fails on length only when the text itself is too long.
   */
  lemma ChopStops(s: string, closer: Option<char>, depth: nat)
    ensures var c := Chop0(s, closer, depth);
            && (c.Done? ==> Stopped(s, closer, c.rest))
            && (c.Done? && closer == None ==> c.rest == "")
            && (c == Fail(TooLong) <==> |s| > 16384)
  {
    ScanStops(s, closer, depth);
    if |s| <= MAX_TEXT {
      NeverTooLong(s, closer, depth);
    }
  }

  lemma {:induction false} NeverTooLong(s: string, closer: Option<char>, depth: nat)
    requires |s| <= MAX_TEXT
    ensures Scan(s, closer, depth) != Fail(TooLong)
    decreases |s|, 1
  {
    hide One, Delims;
    var t := s[Delims(s)..];
    if t != "" && Some(t[0]) != closer {
      OneNotTooLong(t, closer, depth);
      match One(t, closer, depth)
      case Fail(_) =>
      case Done(_, rest) =>
        NeverTooLong(rest, closer, depth);
    }
  }

  lemma {:induction false} OneNotTooLong(t: string, closer: Option<char>, depth: nat)
    requires 0 < |t| <= MAX_TEXT
    ensures One(t, closer, depth) != Fail(TooLong)
    decreases |t|, 0
  {
    hide Scan, HexRun, B64Run, EqualsRun, QuotedRun, WordRun, HasSpecial;
    if (t[0] == '{' || t[0] == '[') && |t| > 1 {
      NeverTooLong(t[1..], Some(Closer(t[0])), depth + 1);
    }
  }
}

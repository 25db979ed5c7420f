// The printer as the source runs it: loops that append to a builder (badjson/parse.go:266-300,
// 369-492; packets/packets.go:497-545). Each is proved against the function of Printing.dfy or
// TextForm.dfy that it computes.
module Printer {
  import opened BadJson
  import opened Printing
  import opened TextForm

  method MakeEscaped(str: string) returns (sb: string)
    ensures sb == Escape(str)
  {
    hide Escape;
    sb := "";
    assert str[0..] == str;
    for i := 0 to |str|
      invariant sb + Escape(str[i..]) == Escape(str)
    {
      EscapeStep(str[i..]);
      assert str[i..][1..] == str[i + 1..];
      if str[i] == '\\' || str[i] == '"' {
        sb := sb + ['\\'];
      }
      sb := sb + [str[i]];
    }
    EscapeNone();
  }

  lemma EscapeNone()
    ensures Escape("") == ""
  {
  }

  lemma EscapeStep(s: string)
    requires s != ""
    ensures Escape(s) == (if Special(s[0]) then ['\\'] + [s[0]] else [s[0]]) + Escape(s[1..])
  {
  }

  method MakeUnescaped(str: string, theQuote: char) returns (sb: string)
    ensures sb == Unescape(str, theQuote, false)
  {
    hide Unescape, Piece;
    sb := "";
    var passedSlash := false;
    assert str[0..] == str;
    for i := 0 to |str|
      invariant sb + Unescape(str[i..], theQuote, passedSlash) == Unescape(str, theQuote, false)
    {
      UnescapeStep(str[i..], theQuote, passedSlash);
      assert str[i..][1..] == str[i + 1..];
      if str[i] == '\\' && !passedSlash {
        passedSlash := true;
      } else {
        Glue(sb, Piece(str[i], theQuote, passedSlash), Unescape(str[i + 1..], theQuote, false));
        OnePiece(sb, str[i], theQuote, passedSlash);
        if passedSlash && str[i] != '\\' && str[i] != theQuote {
          sb := sb + ['\\'];
        }
        sb := sb + [str[i]];
        passedSlash := false;
      }
    }
    UnescapeNone(theQuote, passedSlash);
  }

  // What a character puts out that is not held back as a slash.
  function Piece(c: char, quote: char, passed: bool): string {
    if passed && c != '\\' && c != quote then ['\\', c] else [c]
  }

  lemma OnePiece(sb: string, c: char, quote: char, passed: bool)
    ensures sb + Piece(c, quote, passed) ==
            if passed && c != '\\' && c != quote then sb + ['\\'] + [c] else sb + [c]
  {
  }

  lemma Glue(a: string, b: string, c: string)
    ensures a + (b + c) == a + b + c
  {
  }

  lemma UnescapeNone(quote: char, passed: bool)
    ensures Unescape("", quote, passed) == ""
  {
  }

  lemma UnescapeStep(s: string, quote: char, passed: bool)
    requires s != ""
    ensures Unescape(s, quote, passed) ==
            if s[0] == '\\' && !passed then Unescape(s[1..], quote, true)
            else Piece(s[0], quote, passed) + Unescape(s[1..], quote, false)
  {
  }

  /** RuneArray.Raw. */
  method Raw(input: string, theQuote: Quote, hadQuoteOrSlash: bool) returns (raw: string)
    ensures raw == RawWord(input, theQuote, hadQuoteOrSlash)
  {
    raw := input;
    if theQuote == Double && hadQuoteOrSlash {
      raw := MakeUnescaped(input, '"');
    } else if theQuote == Single && hadQuoteOrSlash {
      raw := MakeUnescaped(input, '\'');
    }
  }

  /** GetQuoted of a word or of a list. */
  method GetQuoted(seg: Seg) returns (sb: string)
    requires Textual(seg)
    ensures sb == Quoted(seg)
    decreases seg, 0
  {
    match seg
    case Word(input, theQuote, hadQuoteOrSlash) =>
      sb := "\"";
      if theQuote == Double && hadQuoteOrSlash {
        sb := sb + input;
      } else {
        var tmp := input;
        if theQuote == Single {
          tmp := MakeUnescaped(input, '\'');
        }
        tmp := MakeEscaped(tmp);
        sb := sb + tmp;
      }
      sb := sb + "\"";
    case Parent(children, wasArray) =>
      sb := GetJSONinternal(children, wasArray);
  }

  /** getJSONinternal. */
  method GetJSONinternal(segs: seq<Seg>, isArray: bool) returns (dest: string)
    requires AllTextual(segs)
    ensures dest == Print(segs, isArray)
    decreases segs, 1
  {
    hide Items, Quoted, Textual;
    var oddDelimeter := ',';
    if isArray {
      dest := "[";
    } else {
      dest := "{";
      oddDelimeter := ':';
    }
    ghost var open := dest;
    assert segs[0..] == segs;
    for i := 0 to |segs|
      invariant dest + Items(segs[i..], isArray, i) == open + Items(segs, isArray, 0)
    {
      ItemsStep(segs, isArray, i);
      if i != 0 {
        if i % 2 != 1 {
          dest := dest + [','];
        } else {
          dest := dest + [oddDelimeter];
        }
      }
      var quoted := GetQuoted(segs[i]);
      dest := dest + quoted;
    }
    ItemsNone(isArray, |segs|);
    assert segs[|segs|..] == [];
    dest := dest + [if isArray then ']' else '}'];
  }

  lemma ItemsNone(wasArray: bool, i: nat)
    ensures Items([], wasArray, i) == ""
  {
  }

  lemma ItemsStep(segs: seq<Seg>, wasArray: bool, i: nat)
    requires AllTextual(segs) && i < |segs|
    ensures Items(segs[i..], wasArray, i) ==
            Separator(wasArray, i) + Quoted(segs[i]) + Items(segs[i + 1..], wasArray, i + 1)
  {
    hide Quoted;
    assert segs[i..][1..] == segs[i + 1..];
  }

  /** UniversalToJSON, for 7-bit arguments that do not start with a NUL. */
  method WriteUniversal(cmd: char, args: seq<string>) returns (bb: string)
    requires forall a :: a in args ==> Printed(a)
    ensures bb == UniversalToJSON(cmd, args)
  {
    hide ArgText;
    bb := ['['];
    bb := bb + [cmd];
    ghost var open := bb;
    assert args[0..] == args;
    for i := 0 to |args|
      invariant bb + ArgsText(args[i..]) == open + ArgsText(args)
    {
      assert args[i..][1..] == args[i + 1..];
      bb := bb + [','];
      var text := WriteArg(args[i]);
      bb := bb + text;
    }
    bb := bb + [']'];
  }
}

/** poly_mysql_escape_string of the sample client, against the string-literal rules of section 9.1.1 of
    the MySQL 5.7 Reference Manual. */
module Escape {

  const NUL: char := 0 as char
  const BACKSPACE: char := 8 as char
  const SUBSTITUTE: char := 26 as char

  /** The replacement map; every key is one byte, so strtr works byte by byte. */
  function EscapeChar(c: char): string {
    if c == NUL then "\\0"
    else if c == '\n' then "\\n"
    else if c == '\r' then "\\r"
    else if c == '\t' then "\\t"
    else if c == SUBSTITUTE then "\\Z"
    else if c == BACKSPACE then "\\b"
    else if c == '"' then "\\\""
    else if c == '\'' then "\\'"
    else if c == '_' then "\\_"
    else if c == '%' then "\\%"
    else if c == '\\' then "\\\\"
    else [c]
  }

  function EscapeString(s: string): string {
    if s == "" then "" else EscapeChar(s[0]) + EscapeString(s[1..])
  }

  // ---- how the server reads a literal ------------------------------------------------------------------

  /** The value of a backslash followed by `c`: \% and \_ keep their backslash, an unknown sequence
      drops it. */
  function Unescape(c: char): string {
    match c
    case '0' => [NUL]
    case 'n' => "\n"
    case 'r' => "\r"
    case 't' => "\t"
    case 'Z' => [SUBSTITUTE]
    case 'b' => [BACKSPACE]
    case '%' => "\\%"
    case '_' => "\\_"
    case _ => [c]
  }

  /** The literal closed with `value`, `rest` being what follows its closing quote; or it never closed. */
  datatype Scan = Closed(value: string, rest: string) | Open

  function Prepend(value: string, s: Scan): Scan {
    match s
    case Closed(v, rest) => Closed(value + v, rest)
    case Open => Open
  }

  /** Reads a literal from behind its opening quote, which is single or double.  A doubled quote of the
      same kind is a quote. */
  function ScanLiteral(quote: char, s: string): Scan {
    if s == "" then Open
    else if s[0] == '\\' then
      if |s| == 1 then Open else Prepend(Unescape(s[1]), ScanLiteral(quote, s[2..]))
    else if s[0] == quote then
      if |s| > 1 && s[1] == quote then Prepend([quote], ScanLiteral(quote, s[2..])) else Closed("", s[1..])
    else Prepend([s[0]], ScanLiteral(quote, s[1..]))
  }

  predicate IsQuote(c: char) {
    c == '\'' || c == '"'
  }

  /** What the literal denotes: the string itself, but for a backslash before each '_' and '%'. */
  function PatternSafe(s: string): string {
    if s == "" then ""
    else (if s[0] == '_' || s[0] == '%' then ['\\', s[0]] else [s[0]]) + PatternSafe(s[1..])
  }

  // ---- what the escape guarantees -------------------------------------------------------------------------

  /** An escape is a backslash and a character that stands for the one escaped; the characters left
      alone neither start an escape nor close a literal. */
  lemma EscapeShape(c: char)
    ensures var e := EscapeChar(c);
            if |e| == 2
            then e[0] == '\\' && Unescape(e[1]) == if c == '_' || c == '%' then ['\\', c] else [c]
            else e == [c] && c != '\\' && !IsQuote(c) && c != '_' && c != '%'
  {
  }

  lemma ScanEscapedChar(quote: char, c: char, tail: string)
    requires IsQuote(quote)
    ensures ScanLiteral(quote, EscapeChar(c) + tail) ==
      Prepend(if c == '_' || c == '%' then ['\\', c] else [c], ScanLiteral(quote, tail))
  {
    hide EscapeChar, Unescape;
    EscapeShape(c);
    var s := EscapeChar(c) + tail;
    if |EscapeChar(c)| == 2 {
      assert s[1] == EscapeChar(c)[1] && s[2..] == tail;
    } else {
      assert s[0] == c && s[1..] == tail;
    }
  }

  /** Whatever the string, a literal in single or double quotes that holds its escape closes exactly at
      the quote put behind it, and denotes the string with a backslash before each '_' and '%'. */
  lemma {:induction false} EscapedLiteralClosesAtItsQuote(quote: char, s: string, rest: string)
    requires IsQuote(quote) && (rest == "" || rest[0] != quote)
    ensures ScanLiteral(quote, EscapeString(s) + [quote] + rest) == Closed(PatternSafe(s), rest)
  {
    if s == "" {
      assert EscapeString(s) + [quote] + rest == [quote] + rest;
      assert ([quote] + rest)[1..] == rest;
    } else {
      var tail := EscapeString(s[1..]) + [quote] + rest;
      assert EscapeString(s) + [quote] + rest == EscapeChar(s[0]) + tail;
      hide ScanLiteral, EscapeChar;
      EscapedLiteralClosesAtItsQuote(quote, s[1..], rest);
      ScanEscapedChar(quote, s[0], tail);
    }
  }

  /** The characters the map replaces. */
  predicate Special(c: char) {
    IsControl(c) || IsQuote(c) || c == '_' || c == '%' || c == '\\'
  }

  predicate IsControl(c: char) {
    c == 0 as char || c == 8 as char || c == '\t' || c == '\n' || c == '\r' || c == 26 as char
  }

  predicate HasSpecial(s: string) {
    exists c :: c in s && Special(c)
  }

  lemma EscapeCharLength(c: char)
    ensures |EscapeChar(c)| == if Special(c) then 2 else 1
    ensures !Special(c) ==> EscapeChar(c) == [c]
    ensures forall x :: x in EscapeChar(c) ==> !IsControl(x)
  {
  }

  /** An escaped string holds no control character the map knows, is longer by one for each special
      character, and is the string itself if and only if there is none. */
  lemma {:induction false} EscapeLeavesNothingRaw(s: string)
    ensures forall c :: c in EscapeString(s) ==> !IsControl(c)
    ensures |EscapeString(s)| >= |s|
    ensures EscapeString(s) == s <==> !HasSpecial(s)
  {
    if s != "" {
      hide EscapeChar, IsControl, Special;
      EscapeLeavesNothingRaw(s[1..]);
      EscapeCharLength(s[0]);
      assert s == [s[0]] + s[1..];
      if Special(s[0]) {
        assert |EscapeString(s)| > |s|;
      } else {
        assert EscapeString(s)[1..] == EscapeString(s[1..]);
      }
    }
  }

  /** The string read in front of an escaped sequence, and what is left. */
  function ReadChar(s: string): (char, string)
    requires s != "" && (s[0] == '\\' ==> |s| > 1)
  {
    if s[0] != '\\' then (s[0], s[1..])
    else
      (match s[1] case '0' => NUL case 'n' => '\n' case 'r' => '\r' case 't' => '\t' case 'Z' => SUBSTITUTE
        case 'b' => BACKSPACE case c => c, s[2..])
  }

  lemma ReadEscapedChar(c: char, tail: string)
    ensures EscapeChar(c) + tail != "" && ((EscapeChar(c) + tail)[0] == '\\' ==> |EscapeChar(c) + tail| > 1)
    ensures ReadChar(EscapeChar(c) + tail) == (c, tail)
  {
    var s := EscapeChar(c) + tail;
    if |EscapeChar(c)| == 2 {
      assert s[2..] == tail;
    } else {
      assert s[1..] == tail;
    }
  }

  /** Two strings with the same escape are the same string. */
  lemma {:induction false} EscapeIsInjective(s: string, t: string)
    requires EscapeString(s) == EscapeString(t)
    ensures s == t
  {
    if s != "" && t != "" {
      hide EscapeChar, ReadChar;
      ReadEscapedChar(s[0], EscapeString(s[1..]));
      ReadEscapedChar(t[0], EscapeString(t[1..]));
      EscapeIsInjective(s[1..], t[1..]);
      assert s == [s[0]] + s[1..] && t == [t[0]] + t[1..];
    } else {
      EscapeNotEmpty(s);
      EscapeNotEmpty(t);
    }
  }

  lemma EscapeNotEmpty(s: string)
    ensures s != "" ==> EscapeString(s) != ""
  {
  }

  predicate HasPatternChar(s: string) {
    '_' in s || '%' in s
  }

  /** The server stores the string unchanged if and only if it holds no '_' and no '%'. */
  lemma {:induction false} UnchangedIffNoPatternChar(s: string)
    ensures |PatternSafe(s)| >= |s|
    ensures PatternSafe(s) == s <==> !HasPatternChar(s)
  {
    if s != "" {
      UnchangedIffNoPatternChar(s[1..]);
      assert s == [s[0]] + s[1..];
      if s[0] == '_' || s[0] == '%' {
        assert |PatternSafe(s)| > |s|;
      } else {
        assert PatternSafe(s)[1..] == PatternSafe(s[1..]);
      }
    }
  }
}

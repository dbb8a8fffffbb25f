/** Double-quoted string literals in two syntaxes: Go's, as `strconv.Quote`
    writes them, and JSON's (RFC 8259, section 7). Each syntax has a writer
    (`Quote`) and a reader (`ReadQuoted`) that takes one literal off the front
    of a text; the reader undoes the writer of the same syntax. */
module Quoting {
  import opened Results

  datatype Syntax = GoSyntax | JsonSyntax

  /** The lower-case hex digit for a value below 16. */
  function HexDigit(d: nat): (c: char)
    requires d < 16
  {
    if d < 10 then ('0' as int + d) as char else ('a' as int + d - 10) as char
  }

  /** The value of a hex digit of either case. */
  function HexValue(c: char): (r: Option<nat>)
    ensures r.Some? ==> r.value < 16
    ensures forall d: nat {:trigger HexDigit(d)} :: d < 16 && c == HexDigit(d) ==> r == Some(d)
  {
    if '0' <= c <= '9' then Some(c as int - '0' as int)
    else if 'a' <= c <= 'f' then Some(c as int - 'a' as int + 10)
    else if 'A' <= c <= 'F' then Some(c as int - 'A' as int + 10)
    else None
  }

  /** Two lower-case hex digits of a byte. */
  function Hex2(n: nat): (s: string)
    requires n < 256
  {
    [HexDigit(n / 16), HexDigit(n % 16)]
  }

  // ---------------------------------------------------------------------
  // Writers

  /** How the writer of `syn` spells one character inside the quotes.
      Go (strconv.Quote on ASCII): backslash and double quote are escaped,
      \a \b \f \n \r \t \v name their control characters, the other control
      characters and DEL become \xhh, printable characters stay.
      JSON: backslash and double quote are escaped, \b \f \n \r \t name their
      control characters, the other control characters become \u00hh.
      Characters outside ASCII stay as they are in both. */
  function EscapeChar(syn: Syntax, c: char): (e: string)
    ensures e != []
    ensures e == [c] ==> RawAllowed(syn, c)
    ensures e != [c] ==> e[0] == '\\' && |e| >= 2
  {
    var n := c as int;
    if c == '"' then "\\\""
    else if c == '\\' then "\\\\"
    else if n == 0x08 then "\\b"
    else if n == 0x0C then "\\f"
    else if c == '\n' then "\\n"
    else if c == '\r' then "\\r"
    else if c == '\t' then "\\t"
    else match syn
      case GoSyntax =>
        if n == 0x07 then "\\a"
        else if n == 0x0B then "\\v"
        else if n < 0x20 || n == 0x7F then "\\x" + Hex2(n)
        else [c]
      case JsonSyntax =>
        if n < 0x20 then "\\u00" + Hex2(n) else [c]
  }

  function Escape(syn: Syntax, s: string): (body: string)
    ensures |body| >= |s|
  {
    if s == [] then [] else EscapeChar(syn, s[0]) + Escape(syn, s[1..])
  }

  /** The literal for `s`: `strconv.Quote(s)` for GoSyntax. */
  function Quote(syn: Syntax, s: string): (q: string)
    ensures |q| >= 2 && q[0] == '"' && q[|q| - 1] == '"'
  {
    "\"" + Escape(syn, s) + "\""
  }

  // ---------------------------------------------------------------------
  // Readers

  /** Characters that may stand for themselves inside the quotes: never a
      quote or a backslash; in Go no raw newline, in JSON no control character. */
  predicate RawAllowed(syn: Syntax, c: char) {
    && c != '"' && c != '\\'
    && match syn
       case GoSyntax => c != '\n'
       case JsonSyntax => c as int >= 0x20
  }

  /** Decodes the escape sequence at the front of `t`, the text just after a
      backslash: the character it stands for and how many characters of `t`
      it takes. Go's \xhh is read only below 0x80, where the byte it denotes
      is a whole character; JSON's \u escapes of surrogate halves are refused. */
  function ReadEscape(syn: Syntax, t: string): (r: Option<(char, nat)>)
    ensures r.Some? ==> 1 <= r.value.1 <= |t|
  {
    if |t| == 0 then None
    else
      var e := t[0];
      if e == '"' then Some(('"', 1))
      else if e == '\\' then Some(('\\', 1))
      else if e == 'b' then Some((0x08 as char, 1))
      else if e == 'f' then Some((0x0C as char, 1))
      else if e == 'n' then Some(('\n', 1))
      else if e == 'r' then Some(('\r', 1))
      else if e == 't' then Some(('\t', 1))
      else match syn
        case GoSyntax =>
          if e == 'a' then Some((0x07 as char, 1))
          else if e == 'v' then Some((0x0B as char, 1))
          else if e == 'x' && |t| >= 3 then
            match (HexValue(t[1]), HexValue(t[2]))
            case (Some(h), Some(l)) =>
              if 16 * h + l < 0x80 then Some(((16 * h + l) as char, 3)) else None
            case _ => None
          else None
        case JsonSyntax =>
          if e == '/' then Some(('/', 1))
          else if e == 'u' && |t| >= 5 then
            match (HexValue(t[1]), HexValue(t[2]), HexValue(t[3]), HexValue(t[4]))
            case (Some(a), Some(b), Some(c), Some(d)) =>
              var n := 4096 * a + 256 * b + 16 * c + d;
              if 0xD800 <= n < 0xE000 then None else Some((n as char, 5))
            case _ => None
          else None
  }

  /** Reads the inside of a literal up to and including its closing quote:
      the decoded string and the text after the quote. */
  function ReadBody(syn: Syntax, s: string): (r: Option<(string, string)>)
    ensures r.Some? ==> |r.value.1| < |s|
    decreases |s|
  {
    if |s| == 0 then None
    else if s[0] == '"' then Some(([], s[1..]))
    else if s[0] == '\\' then
      match ReadEscape(syn, s[1..])
      case None => None
      case Some((c, k)) =>
        match ReadBody(syn, s[1 + k..])
        case None => None
        case Some((v, rest)) => Some(([c] + v, rest))
    else if RawAllowed(syn, s[0]) then
      match ReadBody(syn, s[1..])
      case None => None
      case Some((v, rest)) => Some(([s[0]] + v, rest))
    else None
  }

  /** Reads one literal off the front of `s`: its value and what follows it. */
  function ReadQuoted(syn: Syntax, s: string): (r: Option<(string, string)>)
    ensures r.Some? ==> |r.value.1| <= |s| - 2
  {
    if |s| > 0 && s[0] == '"' then ReadBody(syn, s[1..]) else None
  }

  // ---------------------------------------------------------------------
  // Round trips

  function Prepend(c: char, r: Option<(string, string)>): (r': Option<(string, string)>) {
    match r
    case None => None
    case Some((v, rest)) => Some(([c] + v, rest))
  }

  /** Both digits of Hex2(n) read back, and give n. */
  lemma Hex2Value(n: nat)
    requires n < 256
    ensures HexValue(Hex2(n)[0]) == Some(n / 16) && HexValue(Hex2(n)[1]) == Some(n % 16)
    ensures 16 * (n / 16) + n % 16 == n
  {
  }

  /** A character written as an escape is read back from the text after its
      backslash, and the escape is exactly what the reader consumes. */
  lemma EscapeReads(syn: Syntax, c: char, t: string)
    requires EscapeChar(syn, c) != [c]
    ensures var e := EscapeChar(syn, c);
      |e| >= 2 && e[0] == '\\' && ReadEscape(syn, e[1..] + t) == Some((c, |e| - 1))
  {
    var e := EscapeChar(syn, c);
    if |e| == 2 {
      assert (e[1..] + t)[0] == e[1];
    } else if syn.GoSyntax? {
      HexEscapeReads(c, t);
    } else {
      UnicodeEscapeReads(c, t);
    }
  }

  lemma HexEscapeReads(c: char, t: string)
    requires c as int < 0x20 || c as int == 0x7F
    requires |EscapeChar(GoSyntax, c)| > 2
    ensures EscapeChar(GoSyntax, c) == "\\x" + Hex2(c as int)
    ensures ReadEscape(GoSyntax, EscapeChar(GoSyntax, c)[1..] + t) == Some((c, 3))
  {
    var n := c as int;
    Hex2Value(n);
    var u := "x" + Hex2(n) + t;
    assert u[0] == 'x' && u[1] == Hex2(n)[0] && u[2] == Hex2(n)[1];
    assert EscapeChar(GoSyntax, c)[1..] + t == u;
  }

  lemma UnicodeEscapeReads(c: char, t: string)
    requires c as int < 0x20
    requires |EscapeChar(JsonSyntax, c)| > 2
    ensures EscapeChar(JsonSyntax, c) == "\\u00" + Hex2(c as int)
    ensures ReadEscape(JsonSyntax, EscapeChar(JsonSyntax, c)[1..] + t) == Some((c, 5))
  {
    var n := c as int;
    Hex2Value(n);
    var u := "u00" + Hex2(n) + t;
    assert u[0] == 'u' && u[1] == '0' && u[2] == '0' && u[3] == Hex2(n)[0] && u[4] == Hex2(n)[1];
    assert HexValue('0') == Some(0);
    assert EscapeChar(JsonSyntax, c)[1..] + t == u;
  }

  /** Reading the spelling of one character gives that character back and
      goes on reading right after the spelling. */
  lemma ReadEscapeChar(syn: Syntax, c: char, t: string)
    ensures ReadBody(syn, EscapeChar(syn, c) + t) == Prepend(c, ReadBody(syn, t))
  {
    var e := EscapeChar(syn, c);
    if e == [c] {
      assert (e + t)[0] == c && (e + t)[1..] == t;
    } else {
      EscapeReads(syn, c, t);
      assert (e + t)[0] == '\\' && (e + t)[1..] == e[1..] + t;
      assert (e + t)[1 + (|e| - 1)..] == t;
    }
  }

  /** One more escaped character in front of a body that reads as `v`
      reads as that character followed by `v`. */
  lemma ReadBodyEscapeStep(syn: Syntax, c: char, tail: string, v: string, rest: string)
    requires ReadBody(syn, tail) == Some((v, rest))
    ensures ReadBody(syn, EscapeChar(syn, c) + tail) == Some(([c] + v, rest))
  {
    ReadEscapeChar(syn, c, tail);
  }

  /** The reader of a syntax turns an escaped body and its closing quote back
      into the value, whatever text follows. */
  lemma {:induction false} ReadBodyEscape(syn: Syntax, v: string, rest: string)
    ensures ReadBody(syn, Escape(syn, v) + "\"" + rest) == Some((v, rest))
    decreases |v|
  {
    if v == [] {
      assert Escape(syn, v) + "\"" + rest == "\"" + rest;
    } else {
      var tail := Escape(syn, v[1..]) + "\"" + rest;
      assert Escape(syn, v) + "\"" + rest == EscapeChar(syn, v[0]) + tail;
      ReadBodyEscape(syn, v[1..], rest);
      ReadBodyEscapeStep(syn, v[0], tail, v[1..], rest);
      assert [v[0]] + v[1..] == v;
    }
  }

  /** The reader of a syntax undoes its writer, whatever text follows the
      literal: the quoted value comes back unchanged, so the content of a
      literal can never run past its closing quote. */
  lemma ReadQuoteRoundTrip(syn: Syntax, v: string, rest: string)
    ensures ReadQuoted(syn, Quote(syn, v) + rest) == Some((v, rest))
  {
    var q := Quote(syn, v) + rest;
    assert q[1..] == Escape(syn, v) + "\"" + rest;
    ReadBodyEscape(syn, v, rest);
  }

  // ---------------------------------------------------------------------
  // Where the two syntaxes part

  /** The characters strconv.Quote spells in a way JSON has no escape for:
      BEL and VT (\a, \v) and the control characters and DEL it writes as \xhh. */
  predicate GoOnlyEscape(c: char) {
    var n := c as int;
    (n < 0x20 && n != 0x08 && n != 0x09 && n != 0x0A && n != 0x0C && n != 0x0D) || n == 0x7F
  }

  /** Away from those characters the Go spelling is valid JSON and means the
      same text. */
  lemma {:induction false} GoEscapeIsJson(s: string)
    requires forall i :: 0 <= i < |s| ==> !GoOnlyEscape(s[i])
    ensures Escape(GoSyntax, s) == Escape(JsonSyntax, s)
    decreases |s|
  {
    if s != [] {
      GoEscapeIsJson(s[1..]);
    }
  }

  /** The Go spelling of such a character is refused by a JSON reader
      straight away: JSON has no \\a, \\v or \\x escape. */
  lemma GoOnlyEscapeNotJson(c: char, t: string)
    requires GoOnlyEscape(c)
    ensures ReadBody(JsonSyntax, EscapeChar(GoSyntax, c) + t) == None
  {
    var e := EscapeChar(GoSyntax, c);
    assert e[0] == '\\' && e[1] in "avx";
    assert (e + t)[0] == '\\' && (e + t)[1..] == e[1..] + t;
    assert (e[1..] + t)[0] == e[1];
  }

  /** A character Go spells as JSON does, in front of a text a JSON reader
      refuses, leaves it refused. */
  lemma SharedEscapeRefused(c: char, tail: string)
    requires !GoOnlyEscape(c) && ReadBody(JsonSyntax, tail) == None
    ensures ReadBody(JsonSyntax, EscapeChar(GoSyntax, c) + tail) == None
  {
    GoEscapeIsJson([c]);
    assert EscapeChar(GoSyntax, c) == EscapeChar(JsonSyntax, c);
    ReadEscapeChar(JsonSyntax, c, tail);
  }

  /** A JSON reader refuses the Go literal of any string holding one of those
      characters. */
  lemma {:induction false} GoQuoteNotJson(s: string, rest: string)
    requires exists i :: 0 <= i < |s| && GoOnlyEscape(s[i])
    ensures ReadBody(JsonSyntax, Escape(GoSyntax, s) + "\"" + rest) == None
    decreases |s|
  {
    var e := EscapeChar(GoSyntax, s[0]);
    var tail := Escape(GoSyntax, s[1..]) + "\"" + rest;
    assert Escape(GoSyntax, s) + "\"" + rest == e + tail;
    if GoOnlyEscape(s[0]) {
      GoOnlyEscapeNotJson(s[0], tail);
    } else {
      var i :| 0 <= i < |s| && GoOnlyEscape(s[i]);
      assert GoOnlyEscape(s[1..][i - 1]);
      GoQuoteNotJson(s[1..], rest);
      SharedEscapeRefused(s[0], tail);
    }
  }
}

/** `shlex.quote` and, as its partner, a reader for the shell words it produces. */
module Shlex {
  import opened Wrappers

  /** The characters `shlex.quote` leaves alone: ASCII `\w` and `@%+=:,./-`. */
  predicate IsSafe(c: char)
  {
    || ('a' <= c <= 'z') || ('A' <= c <= 'Z') || ('0' <= c <= '9')
    || c == '_' || c == '@' || c == '%' || c == '+' || c == '='
    || c == ':' || c == ',' || c == '.' || c == '/' || c == '-'
  }

  predicate AllSafe(s: string)
  {
    forall i :: 0 <= i < |s| ==> IsSafe(s[i])
  }

  /** What `shlex.quote` puts in place of each `'`: close the quote, a double-quoted `'`, reopen. */
  const ESCAPED_QUOTE: string := ['\'', '"', '\'', '"', '\'']

  /** `s.replace("'", ESCAPED_QUOTE)` */
  function EscapeSingleQuotes(s: string): (r: string)
    ensures |r| >= |s|
  {
    if s == [] then []
    else (if s[0] == '\'' then ESCAPED_QUOTE else [s[0]]) + EscapeSingleQuotes(s[1..])
  }

  /** A string without a single quote is left as it is. */
  lemma {:induction false} EscapeWithoutQuotes(s: string)
    requires '\'' !in s
    ensures EscapeSingleQuotes(s) == s
    decreases |s|
  {
    if s != [] {
      assert s == [s[0]] + s[1..];
      EscapeWithoutQuotes(s[1..]);
    }
  }

  /** `shlex.quote(s)`: `''` for the empty string, `s` itself when every character is safe,
      otherwise `s` in single quotes with each `'` escaped. */
  function Quote(s: string): (r: string)
    ensures r == s <==> s != [] && AllSafe(s)
    ensures r != s ==> |r| >= 2 && r[0] == '\'' && r[|r| - 1] == '\''
  {
    if s == [] then "''"
    else if AllSafe(s) then s
    else "'" + EscapeSingleQuotes(s) + "'"
  }

  function Cons(c: char, o: Option<string>): Option<string>
  {
    if o.Some? then Some([c] + o.value) else None
  }

  function Prepend(s: string, o: Option<string>): Option<string>
  {
    if o.Some? then Some(s + o.value) else None
  }

  /** The word a POSIX shell reads from `w`, for the part of the shell syntax that quoting needs:
      unquoted safe characters, single-quoted text, and double-quoted text without `$`, backquote
      or backslash. Anything else (a blank, an operator, an unterminated quote) yields None. */
  function ReadWord(w: string): Option<string>
    decreases |w|
  {
    if w == [] then Some([])
    else if w[0] == '\'' then ReadSingleQuoted(w[1..])
    else if w[0] == '"' then ReadDoubleQuoted(w[1..])
    else if IsSafe(w[0]) then Cons(w[0], ReadWord(w[1..]))
    else None
  }

  function ReadSingleQuoted(w: string): Option<string>
    decreases |w|
  {
    if w == [] then None
    else if w[0] == '\'' then ReadWord(w[1..])
    else Cons(w[0], ReadSingleQuoted(w[1..]))
  }

  function ReadDoubleQuoted(w: string): Option<string>
    decreases |w|
  {
    if w == [] then None
    else if w[0] == '"' then ReadWord(w[1..])
    else if w[0] == '$' || w[0] == '`' || w[0] == '\\' then None
    else Cons(w[0], ReadDoubleQuoted(w[1..]))
  }

  /** A word of safe characters reads back as itself. */
  lemma {:induction false} ReadSafeWord(s: string)
    requires AllSafe(s)
    ensures ReadWord(s) == Some(s)
  {
    if s != [] {
      assert AllSafe(s[1..]) by {
        forall i | 0 <= i < |s[1..]| ensures IsSafe(s[1..][i]) { assert s[1..][i] == s[i + 1]; }
      }
      ReadSafeWord(s[1..]);
      assert [s[0]] + s[1..] == s;
    }
  }

  /** Inside single quotes, the escaped text reads back as the original up to the closing quote. */
  lemma {:induction false} ReadEscaped(s: string, rest: string)
    ensures ReadSingleQuoted(EscapeSingleQuotes(s) + "'" + rest) == Prepend(s, ReadWord(rest))
    decreases |s|
  {
    if s == [] {
      assert EscapeSingleQuotes(s) + "'" + rest == "'" + rest;
      assert ("'" + rest)[1..] == rest;
      if ReadWord(rest).Some? { assert s + ReadWord(rest).value == ReadWord(rest).value; }
    } else {
      ReadEscaped(s[1..], rest);
      if s[0] == '\'' {
        ReadEscapedQuoteStep(s, rest);
      } else {
        ReadEscapedPlainStep(s, rest);
      }
    }
  }

  lemma ReadEscapedQuoteStep(s: string, rest: string)
    requires s != [] && s[0] == '\''
    requires ReadSingleQuoted(EscapeSingleQuotes(s[1..]) + "'" + rest) == Prepend(s[1..], ReadWord(rest))
    ensures ReadSingleQuoted(EscapeSingleQuotes(s) + "'" + rest) == Prepend(s, ReadWord(rest))
  {
    var e := EscapeSingleQuotes(s[1..]);
    EscapeQuote(s);
    SeqAppend(EscapeSingleQuotes(s), "'", rest);
    SeqAppend(e, "'", rest);
    SeqAppend(ESCAPED_QUOTE, e, "'" + rest);
    QuoteStep(s, EscapeSingleQuotes(s) + "'" + rest, e + "'" + rest, ReadWord(rest));
  }

  lemma SeqAppend(a: string, e: string, t: string)
    ensures (a + e) + t == a + (e + t)
  {
  }

  lemma EscapeQuote(s: string)
    requires s != [] && s[0] == '\''
    ensures EscapeSingleQuotes(s) == ESCAPED_QUOTE + EscapeSingleQuotes(s[1..])
  {
  }

  lemma QuoteStep(s: string, w: string, tail: string, o: Option<string>)
    requires s != [] && s[0] == '\''
    requires w == ESCAPED_QUOTE + tail
    requires ReadSingleQuoted(tail) == Prepend(s[1..], o)
    ensures ReadSingleQuoted(w) == Prepend(s, o)
  {
    EscapedQuoteReads(tail);
    PrependCons(s, o);
  }

  /** Inside single quotes, `ESCAPED_QUOTE` reads as one `'`. */
  lemma EscapedQuoteReads(tail: string)
    ensures ReadSingleQuoted(ESCAPED_QUOTE + tail) == Cons('\'', ReadSingleQuoted(tail))
  {
    var x4 := ['\''] + tail;
    var x3 := ['"'] + x4;
    var x2 := ['\''] + x3;
    var x1 := ['"'] + x2;
    assert ESCAPED_QUOTE + tail == ['\''] + x1;
    CloseSingle(x1);
    OpenDouble(x2);
    QuoteInDouble(x3);
    CloseDouble(x4);
    OpenSingle(tail);
  }

  lemma ReadEscapedPlainStep(s: string, rest: string)
    requires s != [] && s[0] != '\''
    requires ReadSingleQuoted(EscapeSingleQuotes(s[1..]) + "'" + rest) == Prepend(s[1..], ReadWord(rest))
    ensures ReadSingleQuoted(EscapeSingleQuotes(s) + "'" + rest) == Prepend(s, ReadWord(rest))
  {
    var e := EscapeSingleQuotes(s[1..]);
    EscapePlain(s);
    SeqAppend(EscapeSingleQuotes(s), "'", rest);
    SeqAppend(e, "'", rest);
    SeqAppend([s[0]], e, "'" + rest);
    PlainStep(s, EscapeSingleQuotes(s) + "'" + rest, e + "'" + rest, ReadWord(rest));
  }

  lemma EscapePlain(s: string)
    requires s != [] && s[0] != '\''
    ensures EscapeSingleQuotes(s) == [s[0]] + EscapeSingleQuotes(s[1..])
  {
  }

  lemma PlainStep(s: string, w: string, tail: string, o: Option<string>)
    requires s != [] && s[0] != '\''
    requires w == [s[0]] + tail
    requires ReadSingleQuoted(tail) == Prepend(s[1..], o)
    ensures ReadSingleQuoted(w) == Prepend(s, o)
  {
    PlainInSingle(s[0], tail);
    PrependCons(s, o);
  }

  // One character of each reader, so that the steps above stay small.

  lemma CloseSingle(x: string)
    ensures ReadSingleQuoted(['\''] + x) == ReadWord(x)
  {
    assert (['\''] + x)[1..] == x;
  }

  lemma PlainInSingle(c: char, x: string)
    requires c != '\''
    ensures ReadSingleQuoted([c] + x) == Cons(c, ReadSingleQuoted(x))
  {
    assert ([c] + x)[1..] == x;
  }

  lemma OpenDouble(x: string)
    ensures ReadWord(['"'] + x) == ReadDoubleQuoted(x)
  {
    assert (['"'] + x)[1..] == x;
  }

  lemma QuoteInDouble(x: string)
    ensures ReadDoubleQuoted(['\''] + x) == Cons('\'', ReadDoubleQuoted(x))
  {
    assert (['\''] + x)[1..] == x;
  }

  lemma CloseDouble(x: string)
    ensures ReadDoubleQuoted(['"'] + x) == ReadWord(x)
  {
    assert (['"'] + x)[1..] == x;
  }

  lemma OpenSingle(x: string)
    ensures ReadWord(['\''] + x) == ReadSingleQuoted(x)
  {
    assert (['\''] + x)[1..] == x;
  }

  lemma PrependCons(s: string, o: Option<string>)
    requires s != []
    ensures Cons(s[0], Prepend(s[1..], o)) == Prepend(s, o)
  {
    if o.Some? {
      assert [s[0]] + (s[1..] + o.value) == s + o.value;
    }
  }

  /** Round trip: the shell reads `Quote(s)` back as exactly `s`, as one word. */
  lemma QuoteRoundTrip(s: string)
    ensures ReadWord(Quote(s)) == Some(s)
  {
    if s == [] {
      assert Quote(s) == "''";
      assert "''"[1..] == "'";
      assert "'"[1..] == "";
    } else if AllSafe(s) {
      ReadSafeWord(s);
    } else {
      var e := EscapeSingleQuotes(s);
      ReadEscaped(s, "");
      assert ReadWord("") == Some("");
      assert e + "'" + "" == e + "'";
      assert ("'" + e + "'")[1..] == e + "'";
      assert s + "" == s;
    }
  }
}

/** Free-text escaping for the `type(content='...')` and `finished(content='...')`
    actions of the UI-TARS action language, and the decoder it is meant to
    satisfy: the escaped text, placed between single quotes, reads back as a
    Python string literal holding the original text. */
module Escaping {
  import opened Common

  /** `s.replace(c, r)` for a one-character pattern: every occurrence of `c`
      becomes `r`, scanning left to right. */
  function ReplaceChar(s: string, c: char, r: string): (t: string)
    ensures c !in r ==> c !in t
  {
    if s == [] then [] else (if s[0] == c then r else [s[0]]) + ReplaceChar(s[1..], c, r)
  }

  lemma {:induction false} ReplaceCharConcat(a: string, b: string, c: char, r: string)
    ensures ReplaceChar(a + b, c, r) == ReplaceChar(a, c, r) + ReplaceChar(b, c, r)
    decreases |a|
  {
    if a == [] {
      assert a + b == b;
    } else {
      assert (a + b)[0] == a[0] && (a + b)[1..] == a[1..] + b;
      ReplaceCharConcat(a[1..], b, c, r);
    }
  }

  /** The escaping chain of map_action.py: backslash first, then single quote,
      double quote and newline. */
  function EscapeText(s: string): (r: string)
    ensures '\n' !in r
  {
    ReplaceChar(ReplaceChar(ReplaceChar(ReplaceChar(s, '\\', "\\\\"), '\'', "\\'"), '"', "\\\""),
                '\n', "\\n")
  }

  /** The escape of one character, as the chain leaves it. */
  function EscapeChar(c: char): string {
    if c == '\\' then "\\\\"
    else if c == '\'' then "\\'"
    else if c == '"' then "\\\""
    else if c == '\n' then "\\n"
    else [c]
  }

  /** The character-by-character reference definition of the escaping. */
  function EscapeEach(s: string): string {
    if s == [] then [] else EscapeChar(s[0]) + EscapeEach(s[1..])
  }

  /** The chain of four whole-string replacements escapes each character
      independently: because backslash goes first, no later replacement's
      backslash is escaped a second time. */
  lemma {:induction false} EscapeTextIsPerChar(s: string)
    ensures EscapeText(s) == EscapeEach(s)
    decreases |s|
  {
    if s != [] {
      var c, t := s[0], s[1..];
      assert s == [c] + t;
      EscapeTextConcat([c], t);
      EscapeOneChar(c);
      EscapeTextIsPerChar(t);
    }
  }

  /** Each replacement of the chain works piecewise, so the chain does too. */
  lemma EscapeTextConcat(a: string, b: string)
    ensures EscapeText(a + b) == EscapeText(a) + EscapeText(b)
  {
    ReplaceCharConcat(a, b, '\\', "\\\\");
    var a1, b1 := ReplaceChar(a, '\\', "\\\\"), ReplaceChar(b, '\\', "\\\\");
    ReplaceCharConcat(a1, b1, '\'', "\\'");
    var a2, b2 := ReplaceChar(a1, '\'', "\\'"), ReplaceChar(b1, '\'', "\\'");
    ReplaceCharConcat(a2, b2, '"', "\\\"");
    var a3, b3 := ReplaceChar(a2, '"', "\\\""), ReplaceChar(b2, '"', "\\\"");
    ReplaceCharConcat(a3, b3, '\n', "\\n");
  }

  lemma EscapeOneChar(c: char)
    ensures EscapeText([c]) == EscapeChar(c)
  {
    ReplaceOne(c, '\\', "\\\\");
    if c == '\\' {
      var r := "\\\\";
      ReplaceAbsent(r, '\'', "\\'");
      ReplaceAbsent(r, '"', "\\\"");
      ReplaceAbsent(r, '\n', "\\n");
    } else {
      ReplaceOne(c, '\'', "\\'");
      if c == '\'' {
        var r := "\\'";
        ReplaceAbsent(r, '"', "\\\"");
        ReplaceAbsent(r, '\n', "\\n");
      } else {
        ReplaceOne(c, '"', "\\\"");
        if c == '"' {
          ReplaceAbsent("\\\"", '\n', "\\n");
        } else {
          ReplaceOne(c, '\n', "\\n");
        }
      }
    }
  }

  lemma ReplaceOne(c: char, d: char, r: string)
    ensures ReplaceChar([c], d, r) == if c == d then r else [c]
  {
    assert [c][1..] == [];
  }

  lemma {:induction false} ReplaceAbsent(s: string, d: char, r: string)
    requires d !in s
    ensures ReplaceChar(s, d, r) == s
    decreases |s|
  {
    if s != [] {
      assert s[0] != d && d !in s[1..];
      ReplaceAbsent(s[1..], d, r);
      assert [s[0]] + s[1..] == s;
    }
  }

  /** The character an escape sequence `\d` stands for in a Python literal;
      a backslash-newline is a line continuation and stands for nothing. */
  function EscapeValue(d: char): string {
    if d == 'n' then "\n"
    else if d == 't' then "\t"
    else if d == 'r' then "\r"
    else if d == 'a' then "\U{07}"
    else if d == 'b' then "\U{08}"
    else if d == 'f' then "\U{0C}"
    else if d == 'v' then "\U{0B}"
    else if d == '\\' || d == '\'' || d == '"' then [d]
    else if d == '\n' then ""
    else ['\\', d]
  }

  /** A character Python's tokenizer refuses inside a single-quoted
      literal: a line end (newline or carriage return) or a NUL. */
  predicate Unreadable(c: char) {
    c == '\n' || c == '\r' || c == '\0'
  }

  /** Reads the body of a single-quoted Python string literal up to its
      closing quote: the decoded text and what follows the quote. None for an
      unterminated literal, or a raw newline, carriage return or NUL inside
      it; a backslash before a carriage return or a NUL is refused too. */
  function ReadQuoted(t: string): (r: Option<(string, string)>)
    ensures r.Some? ==> |r.value.1| < |t|
    decreases |t|
  {
    if t == [] then None
    else if t[0] == '\'' then Some(([], t[1..]))
    else if Unreadable(t[0]) then None
    else if t[0] == '\\' then
      if |t| < 2 || t[1] == '\r' || t[1] == '\0' then None
      else
        match ReadQuoted(t[2..])
        case None => None
        case Some(p) => Some((EscapeValue(t[1]) + p.0, p.1))
    else
      match ReadQuoted(t[1..])
      case None => None
      case Some(p) => Some(([t[0]] + p.0, p.1))
  }

  /** The purpose the action language states for the escaping: the escaped
      text, closed by a quote, reads back as exactly the original text, and
      the literal ends at that quote. The chain leaves carriage returns and
      NULs raw, so this holds for text free of them. */
  lemma {:induction false} EscapeRoundTrip(s: string, rest: string)
    requires '\r' !in s && '\0' !in s
    ensures ReadQuoted(EscapeText(s) + "'" + rest) == Some((s, rest))
  {
    EscapeTextIsPerChar(s);
    EachRoundTrip(s, rest);
  }

  /** Text holding a carriage return or a NUL does not read back at all: the
      escaped literal is refused. */
  lemma {:induction false} RawLineEndUnread(s: string, rest: string)
    requires '\r' in s || '\0' in s
    ensures ReadQuoted(EscapeText(s) + "'" + rest) == None
  {
    EscapeTextIsPerChar(s);
    EachUnread(s, rest);
  }

  lemma {:induction false} EachUnread(s: string, rest: string)
    requires '\r' in s || '\0' in s
    ensures ReadQuoted(EscapeEach(s) + "'" + rest) == None
    decreases |s|
  {
    var u := EscapeEach(s[1..]) + "'" + rest;
    assert EscapeEach(s) + "'" + rest == EscapeChar(s[0]) + u;
    if s[0] == '\r' || s[0] == '\0' {
      assert (EscapeChar(s[0]) + u)[0] == s[0];
    } else {
      assert s == [s[0]] + s[1..];
      EachUnread(s[1..], rest);
      var t := EscapeChar(s[0]) + u;
      if s[0] == '\\' || s[0] == '\'' || s[0] == '"' || s[0] == '\n' {
        assert t[0] == '\\' && t[1] != '\r' && t[1] != '\0' && t[2..] == u;
      } else {
        assert t[0] == s[0] && t[1..] == u;
      }
    }
  }

  lemma {:induction false} EachRoundTrip(s: string, rest: string)
    requires '\r' !in s && '\0' !in s
    ensures ReadQuoted(EscapeEach(s) + "'" + rest) == Some((s, rest))
    decreases |s|
  {
    if s == [] {
      assert EscapeEach(s) + "'" + rest == ['\''] + rest;
    } else {
      var u := EscapeEach(s[1..]) + "'" + rest;
      assert s == [s[0]] + s[1..];
      EachRoundTrip(s[1..], rest);
      assert EscapeEach(s) + "'" + rest == EscapeChar(s[0]) + u;
      ReadEscapedChar(s[0], u, s[1..], rest);
      assert [s[0]] + s[1..] == s;
    }
  }

  /** One escaped character in front of a literal body reads back as that
      character in front of what the body reads as. */
  lemma ReadEscapedChar(c: char, u: string, text: string, rest: string)
    requires c != '\r' && c != '\0'
    requires ReadQuoted(u) == Some((text, rest))
    ensures ReadQuoted(EscapeChar(c) + u) == Some(([c] + text, rest))
  {
    var t := EscapeChar(c) + u;
    if c == '\\' || c == '\'' || c == '"' || c == '\n' {
      assert t[0] == '\\' && t[2..] == u;
    } else {
      assert t[0] == c && t[1..] == u;
    }
  }

  /** Text without any of the four special characters is left as it is. */
  lemma {:induction false} PlainTextUnchanged(s: string)
    requires forall i :: 0 <= i < |s| ==> s[i] !in "\\'\"\n"
    ensures EscapeText(s) == s
    decreases |s|
  {
    EscapeTextIsPerChar(s);
    EachPlain(s);
  }

  lemma {:induction false} EachPlain(s: string)
    requires forall i :: 0 <= i < |s| ==> s[i] !in "\\'\"\n"
    ensures EscapeEach(s) == s
    decreases |s|
  {
    if s != [] {
      EachPlain(s[1..]);
      assert s[0] !in "\\'\"\n";
      assert [s[0]] + s[1..] == s;
    }
  }
}

/** Shared vocabulary: Option and Result (the source's None returns and raised
    exceptions), and the handful of Python string operations the core relies on,
    restricted to ASCII where Python is Unicode-aware. */
module Common {

  datatype Option<+T> = None | Some(value: T) {
    function GetOr(default: T): T {
      match this
      case Some(v) => v
      case None => default
    }
  }

  /** The Python exception classes that the core can raise. */
  datatype Error =
    | KeyError(key: string)
    | IndexError
    | TypeError
    | AttributeError(name: string)
    | ValueError
    | NameError(name: string)
    | AssertionError

  datatype Result<+T> = Ok(value: T) | Err(error: Error) {
    predicate IsFailure() { Err? }
    function PropagateFailure<U>(): Result<U>
      requires Err?
    {
      Err(error)
    }
    function Extract(): T
      requires Ok?
    {
      value
    }
  }

  // ---------------------------------------------------------------------------
  // Characters

  predicate IsDigit(c: char) { '0' <= c <= '9' }

  /** Python's `\w` restricted to ASCII. */
  predicate IsWordChar(c: char) {
    'a' <= c <= 'z' || 'A' <= c <= 'Z' || IsDigit(c) || c == '_'
  }

  /** Python's `\s` and `str.split()` / `str.strip()` whitespace, restricted to
      ASCII: space, tab to carriage return, and the separators 0x1C to 0x1F. */
  predicate IsSpace(c: char) {
    c == ' ' || '\t' <= c <= '\r' || '\U{1C}' <= c <= '\U{1F}'
  }

  function LowerChar(c: char): char {
    if 'A' <= c <= 'Z' then (c as int + 32) as char else c
  }

  /** `str.lower()` on ASCII letters. */
  function Lower(s: string): (r: string)
    ensures |r| == |s|
    ensures forall i :: 0 <= i < |s| ==> r[i] == LowerChar(s[i])
  {
    if s == [] then [] else [LowerChar(s[0])] + Lower(s[1..])
  }

  // ---------------------------------------------------------------------------
  // Substrings

  predicate StartsWith(s: string, p: string) {
    |p| <= |s| && s[..|p|] == p
  }

  predicate EndsWith(s: string, p: string) {
    |p| <= |s| && s[|s| - |p|..] == p
  }

  lemma StartsWithAppend(s: string, p: string, rest: string)
    requires StartsWith(s, p)
    ensures StartsWith(s + rest, p)
  {
    assert (s + rest)[..|p|] == s[..|p|];
  }

  lemma PrefixAppend(p: string, rest: string)
    ensures StartsWith(p + rest, p)
  {
    assert (p + rest)[..|p|] == p;
  }

  lemma EndsWithAppend(s: string, p: string)
    ensures EndsWith(s + p, p)
  {
    assert (s + p)[|s|..] == p;
  }

  /** Python's `p in s`. */
  predicate Contains(s: string, p: string)
    decreases |s|
  {
    StartsWith(s, p) || (|s| > 0 && Contains(s[1..], p))
  }

  /** The first index at or after `from` where `p` occurs in `s`. */
  function FindFrom(s: string, p: string, from: nat): (r: Option<nat>)
    decreases |s| - from
    ensures r.Some? ==> from <= r.value && r.value + |p| <= |s| && s[r.value..r.value + |p|] == p
    ensures r.Some? ==> forall j :: from <= j < r.value ==> !StartsWith(s[j..], p)
    ensures r.None? ==> forall j :: from <= j <= |s| ==> !StartsWith(s[j..], p)
  {
    if from > |s| then None
    else if StartsWith(s[from..], p) then Some(from)
    else FindFrom(s, p, from + 1)
  }

  lemma {:induction false} ContainsFind(s: string, p: string)
    ensures Contains(s, p) <==> FindFrom(s, p, 0).Some?
  {
    ContainsFrom(s, p, 0);
    assert s[0..] == s;
    var r := FindFrom(s, p, 0);
    if r.Some? {
      assert s[r.value..][..|p|] == s[r.value..r.value + |p|];
      assert StartsWith(s[r.value..], p);
    }
  }

  lemma {:induction false} ContainsFrom(s: string, p: string, k: nat)
    requires k <= |s|
    ensures Contains(s[k..], p) <==> exists j :: k <= j <= |s| && StartsWith(s[j..], p)
    decreases |s| - k
  {
    if k < |s| {
      ContainsFrom(s, p, k + 1);
      assert s[k..][1..] == s[k + 1..];
    }
  }

  /** An occurrence at a known position. */
  lemma ContainsAt(s: string, p: string, k: nat)
    requires k + |p| <= |s| && s[k..k + |p|] == p
    ensures Contains(s, p)
  {
    assert s[k..][..|p|] == p;
    ContainsFrom(s, p, 0);
    assert s[0..] == s;
  }

  /** A text containing `p + q` contains `p`. */
  lemma {:induction false} ContainsPrefixOf(s: string, p: string, q: string)
    requires Contains(s, p + q)
    ensures Contains(s, p)
    decreases |s|
  {
    if StartsWith(s, p + q) {
      assert s[..|p|] == (p + q)[..|p|] == p;
    } else {
      ContainsPrefixOf(s[1..], p, q);
    }
  }

  /** `s.replace(p, r)` for a non-empty pattern: occurrences are replaced left
      to right, and the scan resumes after each replaced occurrence. */
  function ReplaceAll(s: string, p: string, r: string): (t: string)
    requires p != []
    ensures (forall j :: 0 <= j <= |s| ==> !StartsWith(s[j..], p)) ==> t == s
    decreases |s|
  {
    if s == [] then []
    else if StartsWith(s, p) then
      assert s[0..] == s;
      r + ReplaceAll(s[|p|..], p, r)
    else
      var t := ReplaceAll(s[1..], p, r);
      assert (forall j :: 0 <= j <= |s| ==> !StartsWith(s[j..], p)) ==> t == s[1..] by {
        if forall j :: 0 <= j <= |s| ==> !StartsWith(s[j..], p) {
          forall j | 0 <= j <= |s[1..]|
            ensures !StartsWith(s[1..][j..], p)
          {
            assert s[1..][j..] == s[j + 1..];
          }
        }
      }
      assert [s[0]] + s[1..] == s;
      [s[0]] + t
  }

  // ---------------------------------------------------------------------------
  // Numbers as text (Python's str() of an int)

  function DigitChar(d: nat): char
    requires d < 10
  {
    "0123456789"[d]
  }

  function NatToString(n: nat): (r: string)
    ensures |r| > 0
    ensures forall i :: 0 <= i < |r| ==> IsDigit(r[i])
  {
    if n < 10 then [DigitChar(n)] else NatToString(n / 10) + [DigitChar(n % 10)]
  }

  function IntToString(i: int): string {
    if i < 0 then "-" + NatToString(-i) else NatToString(i)
  }

  /** The value of a run of decimal digits, as Python's int() reads it. */
  function DigitsValue(s: string): nat
    requires forall i :: 0 <= i < |s| ==> IsDigit(s[i])
  {
    if s == [] then 0
    else
      assert IsDigit(s[|s| - 1]);
      DigitsValue(s[..|s| - 1]) * 10 + (s[|s| - 1] as int - '0' as int)
  }

  /** The end of the maximal run of characters satisfying `ok` starting at `i`. */
  function RunEnd(s: string, i: nat, ok: char -> bool): (j: nat)
    requires i <= |s|
    ensures i <= j <= |s|
    ensures forall k :: i <= k < j ==> ok(s[k])
    ensures j == |s| || !ok(s[j])
    decreases |s| - i
  {
    if i < |s| && ok(s[i]) then RunEnd(s, i + 1, ok) else i
  }

  // ---------------------------------------------------------------------------
  // Joining, stripping and splitting

  /** `sep.join(xs)`. */
  function Join(sep: string, xs: seq<string>): string {
    if xs == [] then ""
    else if |xs| == 1 then xs[0]
    else xs[0] + sep + Join(sep, xs[1..])
  }

  function StripLeft(s: string): (r: string)
    ensures |r| <= |s| && r == s[|s| - |r|..]
    ensures r == [] || !IsSpace(r[0])
  {
    if s != [] && IsSpace(s[0]) then StripLeft(s[1..]) else s
  }

  function StripRight(s: string): (r: string)
    ensures r == [] || !IsSpace(r[|r| - 1])
  {
    if s != [] && IsSpace(s[|s| - 1]) then StripRight(s[..|s| - 1]) else s
  }

  /** `str.strip()` with no argument. */
  function Strip(s: string): string {
    StripRight(StripLeft(s))
  }

  predicate NotSpace(c: char) { !IsSpace(c) }

  /** A non-empty run of non-whitespace characters. */
  predicate IsWord(w: string) {
    w != [] && forall k :: 0 <= k < |w| ==> NotSpace(w[k])
  }

  /** The end of the run of non-whitespace that starts at `i`. */
  function WordEnd(s: string, i: nat): (j: nat)
    requires i <= |s|
    ensures i <= j <= |s|
    ensures forall k :: i <= k < j ==> NotSpace(s[k])
    ensures j == |s| || IsSpace(s[j])
    decreases |s| - i
  {
    if i < |s| && NotSpace(s[i]) then WordEnd(s, i + 1) else i
  }

  /** `str.split()` with no argument: the maximal runs of non-whitespace. */
  function Words(s: string): (r: seq<string>)
    ensures forall i :: 0 <= i < |r| ==> IsWord(r[i])
    decreases |s|, 1
  {
    WordsFrom(StripLeft(s))
  }

  /** The words of a string that starts with a word or is empty. */
  function WordsFrom(t: string): (r: seq<string>)
    requires t == [] || NotSpace(t[0])
    ensures forall i :: 0 <= i < |r| ==> IsWord(r[i])
    decreases |t|, 0
  {
    if t == [] then []
    else
      var e := WordEnd(t, 0);
      assert e > 0 by { assert NotSpace(t[0]); }
      [t[..e]] + Words(t[e..])
  }

  /** Splitting words joined by single spaces gives the words back. */
  lemma {:induction false} WordsOfJoin(ws: seq<string>)
    requires forall i :: 0 <= i < |ws| ==> IsWord(ws[i])
    ensures Words(Join(" ", ws)) == ws
    decreases |ws|
  {
    if |ws| == 1 {
      assert ws == [ws[0]];
      WordsSingle(ws[0]);
    } else if |ws| > 1 {
      assert ws == [ws[0]] + ws[1..];
      assert IsWord(ws[1..][0]);
      JoinHead(ws[1..]);
      WordsOfJoin(ws[1..]);
      WordsCons(ws[0], Join(" ", ws[1..]));
    }
  }

  lemma WordsSingle(w: string)
    requires IsWord(w)
    ensures Words(w) == [w]
  {
    WordEndIsEnd(w, |w|);
    WordsAt(w, |w|);
    assert w[..|w|] == w && w[|w|..] == [];
  }

  lemma WordsCons(w: string, rest: string)
    requires IsWord(w) && rest != [] && NotSpace(rest[0])
    ensures Words(w + " " + rest) == [w] + Words(rest)
  {
    var t := w + " " + rest;
    assert t[|w|] == ' ';
    assert forall k :: 0 <= k < |w| ==> t[k] == w[k];
    WordEndIsEnd(t, |w|);
    assert t[..|w|] == w;
    assert t[|w|..] == " " + rest;
    WordsAfterSpace(rest);
    WordsSplit(t, |w|, w, Words(rest));
  }

  lemma WordsSplit(t: string, e: nat, w: string, tail: seq<string>)
    requires t != [] && NotSpace(t[0]) && e <= |t| && WordEnd(t, 0) == e
    requires t[..e] == w && Words(t[e..]) == tail
    ensures Words(t) == [w] + tail
  {
    WordsAt(t, e);
  }

  lemma WordsAt(t: string, e: nat)
    requires t != [] && NotSpace(t[0]) && e <= |t| && WordEnd(t, 0) == e
    ensures Words(t) == [t[..e]] + Words(t[e..])
  {
    assert StripLeft(t) == t;
  }

  lemma WordsAfterSpace(rest: string)
    requires rest != [] && NotSpace(rest[0])
    ensures Words(" " + rest) == Words(rest)
  {
    var t := " " + rest;
    assert t[1..] == rest;
    assert IsSpace(t[0]);
    calc {
      StripLeft(t);
      StripLeft(t[1..]);
      StripLeft(rest);
      rest;
    }
    assert Words(t) == WordsFrom(rest);
  }

  /** Words joined by single spaces need no stripping. */
  lemma {:induction false} JoinOfWordsIsStripped(ws: seq<string>)
    requires forall i :: 0 <= i < |ws| ==> IsWord(ws[i])
    ensures Strip(Join(" ", ws)) == Join(" ", ws)
  {
    var t := Join(" ", ws);
    if ws != [] {
      JoinHead(ws);
      JoinLast(ws);
      assert IsWord(ws[0]) && IsWord(ws[|ws| - 1]);
      assert NotSpace(t[0]);
      assert StripLeft(t) == t;
      var w := ws[|ws| - 1];
      assert t[|t| - 1] == t[|t| - |w|..][|w| - 1];
      assert NotSpace(t[|t| - 1]);
    }
  }

  lemma {:induction false} JoinLast(ws: seq<string>)
    requires ws != []
    ensures |Join(" ", ws)| >= |ws[|ws| - 1]|
    ensures Join(" ", ws)[|Join(" ", ws)| - |ws[|ws| - 1]|..] == ws[|ws| - 1]
    decreases |ws|
  {
    if |ws| > 1 {
      JoinLast(ws[1..]);
      var t := Join(" ", ws);
      var r := Join(" ", ws[1..]);
      var w := ws[|ws| - 1];
      assert ws[1..][|ws[1..]| - 1] == w;
      assert t == (ws[0] + " ") + r;
      assert t[|t| - |w|..] == r[|r| - |w|..];
    }
  }

  /** Lower-casing is taken character by character, so it distributes over
      concatenation. */
  lemma LowerAppend(a: string, b: string)
    ensures Lower(a + b) == Lower(a) + Lower(b)
  {
  }

  lemma JoinHead(ws: seq<string>)
    requires ws != []
    ensures |Join(" ", ws)| >= |ws[0]| && Join(" ", ws)[..|ws[0]|] == ws[0]
  {
  }

  lemma WordEndIsEnd(t: string, e: nat)
    requires e <= |t| && forall k :: 0 <= k < e ==> NotSpace(t[k])
    requires e == |t| || !NotSpace(t[e])
    ensures WordEnd(t, 0) == e
  {
    WordEndFrom(t, 0, e);
  }

  lemma {:induction false} WordEndFrom(t: string, i: nat, e: nat)
    requires i <= e <= |t| && forall k :: i <= k < e ==> NotSpace(t[k])
    requires e == |t| || !NotSpace(t[e])
    ensures WordEnd(t, i) == e
    decreases e - i
  {
    if i < e { WordEndFrom(t, i + 1, e); }
  }
}

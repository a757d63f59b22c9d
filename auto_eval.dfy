/** The trajectory judge of `evaluation/auto_eval_parallel.py`
    (`auto_eval_by_gpt4v`): the checks that end an evaluation early, the
    extraction of the task and the answer from the logged messages, the choice
    of the screenshots attached to the request, the retry loop that rotates
    over three model deployments, and the mapping of the judge's reply to an
    accuracy. Reading files and calling the model are inputs. */
module AutoEval {
  import opened Common
  import opened Json
  import StepEval
  import MapAction

  // ---------------------------------------------------------------------------
  // Paths

  /** `os.path.basename`: the text after the last "/". */
  function Basename(p: string): (r: string)
    decreases |p|
  {
    if p == [] then []
    else if p[|p| - 1] == '/' then []
    else Basename(p[..|p| - 1]) + [p[|p| - 1]]
  }

  /** The task id names the last component of the directory: it holds no "/",
      and what precedes it is empty or ends with "/". */
  lemma {:induction false} BasenameSplits(p: string)
    ensures '/' !in Basename(p)
    ensures |Basename(p)| <= |p| && p[|p| - |Basename(p)|..] == Basename(p)
    ensures var q := p[..|p| - |Basename(p)|]; q == [] || q[|q| - 1] == '/'
    decreases |p|
  {
    if p != [] && p[|p| - 1] != '/' {
      BasenameSplits(p[..|p| - 1]);
      assert p[..|p| - 1][..|p| - 1 - |Basename(p[..|p| - 1])|] == p[..|p| - |Basename(p)|];
    }
  }

  /** `os.path.join(dir, name)` for a relative `name`. */
  function PathJoin(dir: string, name: string): string {
    if dir == [] || dir[|dir| - 1] == '/' then dir + name else dir + "/" + name
  }

  const InteractFile := "interact_messages.json"

  // ---------------------------------------------------------------------------
  // Python's `in` on a decoded JSON value, and the verdict

  /** `needle in v`: a substring test on a string, an element test on a list,
      a key test on a dict; an int is not a container. */
  function In(needle: string, v: Value): (r: Result<bool>)
    ensures r.Err? <==> v.Int?
    ensures v.Str? ==> r == Ok(Contains(v.s, needle))
  {
    match v
    case Str(s) => Ok(Contains(s, needle))
    case List(items) => Ok(Str(needle) in items)
    case Obj(fields) => Ok(Get(fields, needle).Some?)
    case Int(_) => Err(TypeError)
  }

  /** A text containing `p + q` contains `q`. */
  lemma {:induction false} ContainsSuffixOf(s: string, p: string, q: string)
    requires Contains(s, p + q)
    ensures Contains(s, q)
    decreases |s|
  {
    if StartsWith(s, p + q) {
      assert s[|p|..|p| + |q|] == (p + q)[|p|..] == q;
      ContainsAt(s, q, |p|);
    } else {
      ContainsSuffixOf(s[1..], p, q);
      ContainsFrom(s, q, 1);
      var j :| 1 <= j <= |s| && StartsWith(s[j..], q);
      assert s[j..][..|q|] == s[j..j + |q|];
      ContainsAt(s, q, j);
    }
  }

  /** The accuracy read from the judge's reply: 0 for "NOT SUCCESS", else 1,
      and no accuracy at all when "SUCCESS" does not occur. */
  function Verdict(reply: string): Option<nat> {
    var res := if Contains(reply, "NOT SUCCESS") then 0 else 1;
    if !Contains(reply, "SUCCESS") then None else Some(res)
  }

  /** The three verdicts, each exactly characterised. */
  lemma VerdictCases(reply: string)
    ensures Verdict(reply) == Some(0) <==> Contains(reply, "NOT SUCCESS")
    ensures Verdict(reply) == Some(1) <==> Contains(reply, "SUCCESS") && !Contains(reply, "NOT SUCCESS")
    ensures Verdict(reply).None? <==> !Contains(reply, "SUCCESS")
  {
    if Contains(reply, "NOT SUCCESS") {
      assert "NOT SUCCESS" == "NOT " + "SUCCESS";
      ContainsSuffixOf(reply, "NOT ", "SUCCESS");
    }
  }

  // ---------------------------------------------------------------------------
  // The task: re.search(r"Now given a task:(.+?)Please interact with", s)

  const TaskHead := "Now given a task:"
  const TaskTail := "Please interact with"

  /** The lazy end of the capture that starts at `j`: the first `k > j` where
      the tail follows, the capture never crossing a newline. */
  function LazyEnd(s: string, j: nat, k: nat): (r: Option<nat>)
    requires j < k
    decreases |s| + 1 - k
    ensures r.Some? ==> k <= r.value <= |s|
  {
    if k > |s| || s[k - 1] == '\n' then None
    else if StartsWith(s[k..], TaskTail) then Some(k)
    else LazyEnd(s, j, k + 1)
  }

  /** What the lazy end promises: the capture is non-empty and has no newline,
      the tail follows it, and no earlier end would do. */
  lemma {:induction false} LazyEndSound(s: string, j: nat, k: nat)
    requires j < k && LazyEnd(s, j, k).Some?
    requires forall x :: j <= x < k - 1 ==> s[x] != '\n'
    requires forall x :: j < x < k ==> !StartsWith(s[x..], TaskTail)
    ensures var e := LazyEnd(s, j, k).value;
            StartsWith(s[e..], TaskTail) && '\n' !in s[j..e] &&
            forall x :: j < x < e ==> !StartsWith(s[x..], TaskTail)
    decreases |s| + 1 - k
  {
    if !StartsWith(s[k..], TaskTail) {
      LazyEndSound(s, j, k + 1);
    } else {
      assert forall x :: j <= x < k ==> s[j..k][x - j] == s[x];
    }
  }

  /** The capture of a match starting at `i`, if one starts there. */
  function TaskAt(s: string, i: nat): (r: Option<string>)
    requires i <= |s|
  {
    if !StartsWith(s[i..], TaskHead) then None
    else
      var j := i + |TaskHead|;
      match LazyEnd(s, j, j + 1)
      case Some(e) => Some(s[j..e])
      case None => None
  }

  /** A capture found at `p` is non-empty, has no newline, sits between the
      head and the tail, and is the shortest such capture there. */
  lemma TaskAtSound(s: string, p: nat)
    requires p <= |s| && TaskAt(s, p).Some?
    ensures var c := TaskAt(s, p).value; var j := p + |TaskHead|;
            c != [] && '\n' !in c && StartsWith(s[p..], TaskHead + c + TaskTail) &&
            forall y :: j < y < j + |c| ==> !StartsWith(s[y..], TaskTail)
  {
    var j := p + |TaskHead|;
    LazyEndSound(s, j, j + 1);
    var e := LazyEnd(s, j, j + 1).value;
    var c := s[j..e];
    assert s[p..][..|TaskHead| + |c| + |TaskTail|] == TaskHead + c + TaskTail by {
      assert s[p..][..|TaskHead|] == s[p..j];
      assert s[e..][..|TaskTail|] == s[e..e + |TaskTail|];
    }
  }

  /** The leftmost position at or after `i` where a match starts. */
  function TaskStart(s: string, i: nat): (r: Option<nat>)
    requires i <= |s|
    decreases |s| - i
    ensures r.Some? ==> i <= r.value <= |s| && TaskAt(s, r.value).Some?
    ensures r.Some? ==> forall q :: i <= q < r.value ==> TaskAt(s, q).None?
  {
    if TaskAt(s, i).Some? then Some(i)
    else if i == |s| then None
    else TaskStart(s, i + 1)
  }

  /** `matches.group(1)`, an AttributeError when nothing matched. */
  function TaskCapture(s: string): Result<string> {
    match TaskStart(s, 0)
    case Some(p) => Ok(TaskAt(s, p).value)
    case None => Err(AttributeError("group"))
  }

  // ---------------------------------------------------------------------------
  // The answer of a finished call:
  // re.search(r"finished\(content=(?:'|\")(?P<answer>.*)(?:'|\")\)", s, re.DOTALL)

  const FinishedHead := "finished(content="

  predicate IsQuote(c: char) { c == '\'' || c == '"' }

  /** A quote followed by a closing parenthesis at `k`. */
  predicate QuoteClose(s: string, k: nat) {
    k + 1 < |s| && IsQuote(s[k]) && s[k + 1] == ')'
  }

  /** The greedy end of the answer: the last quote-and-parenthesis in
      `s[lo..hi]`. */
  function LastClose(s: string, lo: nat, hi: nat): (r: Option<nat>)
    decreases hi
    ensures r.Some? ==> lo <= r.value < hi && QuoteClose(s, r.value)
    ensures r.Some? ==> forall k :: r.value < k < hi ==> !QuoteClose(s, k)
    ensures r.None? ==> forall k :: lo <= k < hi ==> !QuoteClose(s, k)
  {
    if hi <= lo then None
    else if QuoteClose(s, hi - 1) then Some(hi - 1)
    else LastClose(s, lo, hi - 1)
  }

  /** The answer of a match starting at `i`, if one starts there. */
  function FinishedAt(s: string, i: nat): (r: Option<string>)
    requires i <= |s|
  {
    var j := i + |FinishedHead|;
    if !StartsWith(s[i..], FinishedHead) || j >= |s| || !IsQuote(s[j]) then None
    else
      match LastClose(s, j + 1, |s|)
      case Some(k) => Some(s[j + 1..k])
      case None => None
  }

  /** What a match promises: the head, an opening quote, the answer, a closing
      quote and parenthesis, and no quote-and-parenthesis anywhere after the
      answer (the capture is greedy and may itself hold quotes and newlines). */
  lemma FinishedAtSound(s: string, i: nat)
    requires i <= |s| && FinishedAt(s, i).Some?
    ensures var a := FinishedAt(s, i).value; var j := i + |FinishedHead|;
            StartsWith(s[i..], FinishedHead) && IsQuote(s[j]) &&
            s[j + 1..j + 1 + |a|] == a && QuoteClose(s, j + 1 + |a|) &&
            forall k :: j + 1 + |a| < k < |s| ==> !QuoteClose(s, k)
  {
  }

  /** The leftmost position at or after `i` where a match starts. */
  function FinishedStart(s: string, i: nat): (r: Option<nat>)
    requires i <= |s|
    decreases |s| - i
    ensures r.Some? ==> i <= r.value <= |s| && FinishedAt(s, r.value).Some?
    ensures r.Some? ==> forall q :: i <= q < r.value ==> FinishedAt(s, q).None?
  {
    if FinishedAt(s, i).Some? then Some(i)
    else if i == |s| then None
    else FinishedStart(s, i + 1)
  }

  /** The stripped answer, or None when the pattern does not match. */
  function FinishedAnswer(s: string): Option<string> {
    match FinishedStart(s, 0)
    case Some(p) => Some(Strip(FinishedAt(s, p).value))
    case None => None
  }

  /** The capture runs to the last quote-and-parenthesis, so an answer that
      itself holds one is kept whole. */
  lemma FinishedGreedy()
    ensures FinishedAnswer("finished(content='a') b')") == Some("a') b")
  {
    var s := "finished(content='a') b')";
    assert s[0..][..|FinishedHead|] == FinishedHead;
    assert LastClose(s, 18, |s|) == Some(23);
    assert FinishedStart(s, 0) == Some(0);
    assert s[18..23] == "a') b";
  }

  // ---------------------------------------------------------------------------
  // The answer of an ANSWER action: re.search(r"ANSWER[; ]+\[?(.[^\]]*)\]?", s)

  const AnswerWord := "ANSWER"

  predicate IsSeparator(c: char) { c == ';' || c == ' ' }

  /** The end of the run of ";" and " " starting at `j`. */
  function SeparatorEnd(s: string, j: nat): (r: nat)
    requires j <= |s|
    decreases |s| - j
    ensures j <= r <= |s| && (r < |s| ==> !IsSeparator(s[r]))
    ensures forall k :: j <= k < r ==> IsSeparator(s[k])
  {
    if j < |s| && IsSeparator(s[j]) then SeparatorEnd(s, j + 1) else j
  }

  /** The end of the run of characters other than "]" starting at `j`. */
  function OpenEnd(s: string, j: nat): (r: nat)
    requires j <= |s|
    decreases |s| - j
    ensures j <= r <= |s| && (r < |s| ==> s[r] == ']')
    ensures forall k :: j <= k < r ==> s[k] != ']'
  {
    if j < |s| && s[j] != ']' then OpenEnd(s, j + 1) else j
  }

  /** The capture of a match starting at `i`. The separators are taken
      greedily and an opening bracket is skipped; the capture then starts
      with any character but a newline and runs up to the next "]". When the
      character after the separators (or after the bracket) is a newline or
      the end, the regular expression backtracks: first the bracket becomes
      the captured character, then the last separator does, provided at least
      one separator remains before it. */
  function AnswerAt(s: string, i: nat): (r: Option<string>)
    requires i <= |s|
  {
    if !StartsWith(s[i..], AnswerWord) then None
    else
      var p := i + |AnswerWord|;
      var e := SeparatorEnd(s, p);
      if e == p then None
      else if e < |s| && s[e] == '[' then
        if e + 1 < |s| && s[e + 1] != '\n' then Some(s[e + 1..OpenEnd(s, e + 2)])
        else Some(s[e..OpenEnd(s, e + 1)])
      else if e < |s| && s[e] != '\n' then Some(s[e..OpenEnd(s, e + 1)])
      else if e - p >= 2 then Some(s[e - 1..OpenEnd(s, e)])
      else None
  }

  /** A capture is never empty and holds no "]" after its first character. */
  lemma AnswerAtShape(s: string, i: nat)
    requires i <= |s| && AnswerAt(s, i).Some?
    ensures var a := AnswerAt(s, i).value; a != [] && forall k :: 0 < k < |a| ==> a[k] != ']'
  {
  }

  /** The leftmost position at or after `i` where a match starts. */
  function AnswerStart(s: string, i: nat): (r: Option<nat>)
    requires i <= |s|
    decreases |s| - i
    ensures r.Some? ==> i <= r.value <= |s| && AnswerAt(s, r.value).Some?
    ensures r.Some? ==> forall q :: i <= q < r.value ==> AnswerAt(s, q).None?
  {
    if AnswerAt(s, i).Some? then Some(i)
    else if i == |s| then None
    else AnswerStart(s, i + 1)
  }

  /** `matches_ans.group(1).strip()`, an AttributeError when nothing matched. */
  function AnswerCapture(s: string): Result<string> {
    match AnswerStart(s, 0)
    case Some(p) => Ok(Strip(AnswerAt(s, p).value))
    case None => Err(AttributeError("group"))
  }

  // ---------------------------------------------------------------------------
  // Screenshot selection: re.search(r'screenshot(\d+)\.png', name), a sort by
  // the number read, and the last `img_num` of them

  const ShotWord := "screenshot"
  const ShotSuffix := ".png"

  /** The number of a match starting at `i`: the whole digit run after the
      word must be followed by ".png" (a shorter run would leave a digit where
      the dot must be). */
  function ShotAt(name: string, i: nat): (r: Option<nat>)
    requires i <= |name|
  {
    if !StartsWith(name[i..], ShotWord) then None
    else
      var d := i + |ShotWord|;
      var e := StepEval.DigitEnd(name, d);
      if e > d && StartsWith(name[e..], ShotSuffix) then Some(StepEval.DigitsIn(name, d, e)) else None
  }

  /** The number of the leftmost match at or after `i`. */
  function ShotFrom(name: string, i: nat): (r: Option<nat>)
    requires i <= |name|
    decreases |name| - i
  {
    if ShotAt(name, i).Some? then ShotAt(name, i)
    else if i == |name| then None
    else ShotFrom(name, i + 1)
  }

  function ShotNumber(name: string): Option<nat> {
    ShotFrom(name, 0)
  }

  lemma {:induction false} DigitEndAt(s: string, i: nat, e: nat)
    requires i <= e <= |s|
    requires forall k :: i <= k < e ==> IsDigit(s[k])
    requires e == |s| || !IsDigit(s[e])
    ensures StepEval.DigitEnd(s, i) == e
    decreases e - i
  {
    if i < e {
      DigitEndAt(s, i + 1, e);
    }
  }

  /** The file the agent saves for step `k` is read back as number `k`. */
  lemma ShotNumberOfSaved(k: nat)
    ensures ShotNumber(ShotWord + NatToString(k) + ShotSuffix) == Some(k)
  {
    var digits := NatToString(k);
    var name := ShotWord + digits + ShotSuffix;
    var d := |ShotWord|;
    var e := d + |digits|;
    assert name[0..] == name;
    assert name[..|ShotWord|] == ShotWord;
    assert name[d..e] == digits;
    assert forall x :: d <= x < e ==> name[x] == digits[x - d];
    assert name[e..] == ShotSuffix;
    DigitEndAt(name, d, e);
    StepEval.DigitsInValue(name, d, e);
    MapAction.NatToStringValue(k);
  }

  /** `[(f, n) for f in names if re.search(...)]`: the matching names, in their
      listing order, with their numbers. */
  function Numbered(names: seq<string>): (r: seq<(string, nat)>)
    ensures |r| <= |names|
  {
    if names == [] then []
    else
      var rest := Numbered(names[..|names| - 1]);
      match ShotNumber(names[|names| - 1])
      case Some(n) => rest + [(names[|names| - 1], n)]
      case None => rest
  }

  predicate SortedByNumber(ms: seq<(string, nat)>) {
    forall a, b :: 0 <= a < b < |ms| ==> ms[a].1 <= ms[b].1
  }

  /** The entries of `ms` numbered `n`, in order. */
  function WithNumber(ms: seq<(string, nat)>, n: nat): seq<(string, nat)> {
    if ms == [] then []
    else (if ms[0].1 == n then [ms[0]] else []) + WithNumber(ms[1..], n)
  }

  /** Stable insertion: `x` goes after every entry whose number is not larger. */
  function Insert(ms: seq<(string, nat)>, x: (string, nat)): (r: seq<(string, nat)>)
    decreases |ms|
  {
    if ms == [] || x.1 < ms[0].1 then [x] + ms
    else [ms[0]] + Insert(ms[1..], x)
  }

  /** `matches.sort(key=lambda x: x[1])`: a stable sort by number. */
  function SortByNumber(ms: seq<(string, nat)>): (r: seq<(string, nat)>)
  {
    if ms == [] then []
    else Insert(SortByNumber(ms[..|ms| - 1]), ms[|ms| - 1])
  }

  lemma {:induction false} InsertKeeps(ms: seq<(string, nat)>, x: (string, nat))
    ensures multiset(Insert(ms, x)) == multiset(ms) + multiset{x}
    ensures |Insert(ms, x)| == |ms| + 1
    ensures Insert(ms, x)[0] == x || (ms != [] && Insert(ms, x)[0] == ms[0])
    decreases |ms|
  {
    if ms != [] && x.1 >= ms[0].1 {
      InsertKeeps(ms[1..], x);
      assert ms == [ms[0]] + ms[1..];
    }
  }

  lemma {:induction false} InsertSorted(ms: seq<(string, nat)>, x: (string, nat))
    requires SortedByNumber(ms)
    ensures SortedByNumber(Insert(ms, x))
    decreases |ms|
  {
    if ms != [] && x.1 >= ms[0].1 {
      InsertSorted(ms[1..], x);
      InsertKeeps(ms[1..], x);
      var t := Insert(ms[1..], x);
      assert forall b :: 0 <= b < |t| ==> ms[0].1 <= t[b].1 by {
        assert forall b :: 0 < b < |ms| ==> ms[0].1 <= ms[b].1;
        assert ms[0].1 <= t[0].1;
      }
    }
  }

  /** The entries numbered above `n`'s first entry contribute nothing. */
  lemma {:induction false} WithNumberAbove(ms: seq<(string, nat)>, n: nat)
    requires forall a :: 0 <= a < |ms| ==> ms[a].1 > n
    ensures WithNumber(ms, n) == []
  {
    if ms != [] {
      WithNumberAbove(ms[1..], n);
    }
  }

  lemma {:induction false} WithNumberSnoc(ms: seq<(string, nat)>, x: (string, nat), n: nat)
    ensures WithNumber(ms + [x], n) == WithNumber(ms, n) + (if x.1 == n then [x] else [])
  {
    if ms != [] {
      WithNumberSnoc(ms[1..], x, n);
      assert (ms + [x])[1..] == ms[1..] + [x];
    }
  }

  lemma {:induction false} InsertStable(ms: seq<(string, nat)>, x: (string, nat), n: nat)
    requires SortedByNumber(ms)
    ensures WithNumber(Insert(ms, x), n) == WithNumber(ms, n) + (if x.1 == n then [x] else [])
    decreases |ms|
  {
    if ms == [] || x.1 < ms[0].1 {
      assert ([x] + ms)[1..] == ms;
      if x.1 == n {
        assert forall a :: 0 <= a < |ms| ==> ms[a].1 > n by {
          assert forall a :: 0 < a < |ms| ==> ms[0].1 <= ms[a].1;
        }
        WithNumberAbove(ms, n);
      }
    } else {
      var rest := ms[1..];
      assert SortedByNumber(rest);
      InsertStable(rest, x, n);
      assert ([ms[0]] + Insert(rest, x))[1..] == Insert(rest, x);
    }
  }

  /** The sort orders by number, ... */
  lemma {:induction false} SortByNumberSorted(ms: seq<(string, nat)>)
    ensures SortedByNumber(SortByNumber(ms))
  {
    if ms != [] {
      SortByNumberSorted(ms[..|ms| - 1]);
      InsertSorted(SortByNumber(ms[..|ms| - 1]), ms[|ms| - 1]);
    }
  }

  /** ... keeps every entry, ... */
  lemma {:induction false} SortByNumberPermutes(ms: seq<(string, nat)>)
    ensures multiset(SortByNumber(ms)) == multiset(ms)
  {
    if ms != [] {
      var init := ms[..|ms| - 1];
      SortByNumberPermutes(init);
      InsertKeeps(SortByNumber(init), ms[|ms| - 1]);
      assert ms == init + [ms[|ms| - 1]];
    }
  }

  /** ... and keeps entries with equal numbers in their listing order. */
  lemma {:induction false} SortByNumberStable(ms: seq<(string, nat)>, n: nat)
    ensures WithNumber(SortByNumber(ms), n) == WithNumber(ms, n)
  {
    if ms != [] {
      var init, last := ms[..|ms| - 1], ms[|ms| - 1];
      var tail := if last.1 == n then [last] else [];
      SortByNumberStable(init, n);
      SortByNumberSorted(init);
      InsertStable(SortByNumber(init), last, n);
      assert WithNumber(SortByNumber(ms), n) == WithNumber(init, n) + tail;
      assert ms == init + [last];
      WithNumberSnoc(init, last, n);
    }
  }

  /** `matches[-img_num:]`: 0 keeps all, a positive count keeps that many
      from the end, a negative one drops that many from the front. */
  function KeepLast<T>(ms: seq<T>, imgNum: int): (r: seq<T>)
    ensures imgNum == 0 ==> r == ms
    ensures imgNum > 0 ==> |r| == (if imgNum < |ms| then imgNum else |ms|)
    ensures imgNum < 0 ==> |r| == (if -imgNum < |ms| then |ms| + imgNum else 0)
    ensures r == ms[|ms| - |r|..]
  {
    if imgNum == 0 then ms
    else if imgNum > 0 then (if imgNum < |ms| then ms[|ms| - imgNum..] else ms)
    else if -imgNum < |ms| then ms[-imgNum..] else []
  }

  /** The numbers read off a two-screenshot listing, in listing order. */
  lemma ListingNumbers(a: string, b: string, m: nat, n: nat)
    requires ShotNumber(a) == Some(n) && ShotNumber(b) == Some(m)
    ensures Numbered([a, b]) == [(a, n), (b, m)]
  {
    assert [a, b][..1] == [a];
    assert [a][..0] == [];
  }

  /** The order is numeric, not the listing's: whenever the listing puts a
      screenshot numbered n before one numbered m < n (as "screenshot10.png"
      before "screenshot9.png"), the later-numbered one is attached last. */
  lemma NumericNotLexical(m: nat, n: nat)
    requires m < n
    ensures var early := ShotWord + NatToString(m) + ShotSuffix;
            var late := ShotWord + NatToString(n) + ShotSuffix;
            Attached([late, early], 0) == [early, late]
  {
    var early := ShotWord + NatToString(m) + ShotSuffix;
    var late := ShotWord + NatToString(n) + ShotSuffix;
    ShotNumberOfSaved(m);
    ShotNumberOfSaved(n);
    ListingNumbers(late, early, m, n);
    assert [(late, n), (early, m)][..1] == [(late, n)];
    assert SortByNumber([(late, n)]) == [(late, n)];
    assert SortByNumber([(late, n), (early, m)]) == [(early, m), (late, n)];
  }

  /** The screenshots attached, oldest first. */
  function Attached(names: seq<string>, imgNum: int): (r: seq<string>) {
    var kept := KeepLast(SortByNumber(Numbered(names)), imgNum);
    seq(|kept|, i requires 0 <= i < |kept| => kept[i].0)
  }

  // ---------------------------------------------------------------------------
  // The judge call: up to 9 attempts, rotating over three deployments

  /** What one call of the judge model does. */
  datatype CallOutcome =
    | Reply(content: string)
    | RateLimitError
    | APIError
    | InvalidRequestError
    | OtherError

  /** How the retry loop ends: with a reply, by giving up, or by exiting the
      process on an invalid request. */
  datatype Call = Answered(content: string) | GaveUp | Exited

  const ApiModels: seq<string> := ["gpt-4o-pika", "gpt-4o-global", "gpt-4o"]
  const MaxCalls := 9

  /** A failure after which the loop tries again. */
  predicate Retryable(o: CallOutcome) {
    o.RateLimitError? || o.APIError? || o.OtherError?
  }

  /** The first `n` attempts all failed in a way that is retried. */
  predicate RetriedAll(outcomes: nat -> CallOutcome, n: nat) {
    n == 0 || (RetriedAll(outcomes, n - 1) && Retryable(outcomes(n - 1)))
  }

  /** The end of the loop from attempt `k` (0-based) on. */
  function Rotation(outcomes: nat -> CallOutcome, k: nat): Call
    decreases MaxCalls - k
  {
    if k >= MaxCalls then GaveUp
    else match outcomes(k)
      case Reply(c) => Answered(c)
      case InvalidRequestError => Exited
      case _ => Rotation(outcomes, k + 1)
  }

  /** The retry loop: attempt `k` goes to deployment `k mod 3`, since every
      failure moves the model index on by one; the counter check comes
      before the call, so the tenth pass gives up without calling. */
  method CallRotating(outcomes: nat -> CallOutcome) returns (r: Call, models: seq<string>)
    ensures r == Rotation(outcomes, 0)
    ensures 1 <= |models| <= MaxCalls
    ensures forall k :: 0 <= k < |models| ==> models[k] == ApiModels[k % 3]
    ensures RetriedAll(outcomes, |models| - 1)
    ensures r.GaveUp? ==> |models| == MaxCalls && RetriedAll(outcomes, MaxCalls)
    ensures r.Answered? ==> outcomes(|models| - 1) == Reply(r.content)
    ensures r.Exited? ==> outcomes(|models| - 1) == InvalidRequestError
  {
    var retry := 0;
    var modelIdx := 0;
    models := [];
    while true
      invariant retry == modelIdx == |models| <= MaxCalls
      invariant forall k :: 0 <= k < |models| ==> models[k] == ApiModels[k % 3]
      invariant RetriedAll(outcomes, retry)
      invariant Rotation(outcomes, retry) == Rotation(outcomes, 0)
      decreases MaxCalls - retry
    {
      retry := retry + 1;
      if retry == 10 {
        return GaveUp, models;
      }
      models := models + [ApiModels[modelIdx % |ApiModels|]];
      var o := outcomes(retry - 1);
      if o.Reply? {
        return Answered(o.content), models;
      }
      modelIdx := modelIdx + 1;
      if o.InvalidRequestError? {
        return Exited, models;
      }
    }
  }

  /** Every deployment gets a turn: of any three consecutive attempts, one
      goes to each. */
  lemma RotationCovers(k: nat)
    ensures {ApiModels[k % 3], ApiModels[(k + 1) % 3], ApiModels[(k + 2) % 3]} == set m | m in ApiModels
  {
  }

  // ---------------------------------------------------------------------------
  // The evaluation of one task directory

  /** What is read from the log before the judge is called: either a reason to
      stop with accuracy 0, or the task and the answer to judge. */
  datatype Prepared = EarlyReport(text: string) | Ready(task: string, answer: string)

  /** The task text: the first message's content, or its first part's "text"
      when the content is a list. */
  function TaskInfo(content: Value): Result<Value> {
    if content.List? then
      var part :- Index(content, 0);
      Subscript(part, "text")
    else Ok(content)
  }

  /** The checks and extractions before the judge call, in the source's
      order; `messages` is the decoded log, read only when it exists. */
  function Prepare(processDir: string, fileExists: bool, messages: seq<Value>): Result<Prepared> {
    if !fileExists then Ok(EarlyReport("File not found: " + PathJoin(processDir, InteractFile)))
    else if |messages| == 1 then Ok(EarlyReport("Not find answer for " + processDir))
    else if |messages| == 0 then Err(IndexError)
    else
      var first :- Subscript(messages[1], "content");
      var taskInfo :- TaskInfo(first);
      var hasTask :- In("Now given a task", taskInfo);
      if !hasTask then Ok(EarlyReport("Not find task info for " + processDir))
      else if !taskInfo.Str? then Err(TypeError)
      else
        var captured :- TaskCapture(taskInfo.s);
        var ansInfo :- Subscript(messages[|messages| - 1], "content");
        var hasAction :- In("Action: ANSWER", ansInfo);
        var hasFinished := In("finished(content=", ansInfo).value;
        if !hasAction && !hasFinished then Ok(EarlyReport("Not find answer for " + processDir))
        else if hasFinished then
          if !ansInfo.Str? then Err(TypeError)
          else match FinishedAnswer(ansInfo.s)
            case Some(a) => Ok(Ready(Strip(captured), a))
            case None => Ok(EarlyReport("Answer not found"))
        else
          var hasWord := In("ANSWER", ansInfo).value;
          if !hasWord then Err(NameError("answer_content"))
          else if !ansInfo.Str? then Err(TypeError)
          else
            var a :- AnswerCapture(ansInfo.s);
            Ok(Ready(Strip(captured), a))
  }

  /** Three of the reasons to stop early with accuracy 0: no log, a log of
      one message, and a task text (here a string) without "Now given a
      task". */
  lemma EarlyExits(processDir: string, fileExists: bool, messages: seq<Value>)
    ensures !fileExists ==>
              Prepare(processDir, fileExists, messages) == Ok(EarlyReport("File not found: " + PathJoin(processDir, InteractFile)))
    ensures fileExists && |messages| == 1 ==>
              Prepare(processDir, fileExists, messages) == Ok(EarlyReport("Not find answer for " + processDir))
    ensures fileExists && |messages| >= 2 && Subscript(messages[1], "content").Ok? &&
            Subscript(messages[1], "content").value.Str? &&
            !Contains(Subscript(messages[1], "content").value.s, "Now given a task") ==>
              Prepare(processDir, fileExists, messages) == Ok(EarlyReport("Not find task info for " + processDir))
  {
  }

  /** The fourth: a task is found, but the last message's text holds neither
      "Action: ANSWER" nor "finished(content=". */
  lemma NoAnswerExit(processDir: string, messages: seq<Value>, task: string, answer: string)
    requires |messages| >= 2
    requires Subscript(messages[1], "content") == Ok(Str(task)) && TaskCapture(task).Ok?
    requires Subscript(messages[|messages| - 1], "content") == Ok(Str(answer))
    requires !Contains(answer, "Action: ANSWER") && !Contains(answer, "finished(content=")
    ensures Prepare(processDir, true, messages) == Ok(EarlyReport("Not find answer for " + processDir))
  {
    var p := TaskStart(task, 0).value;
    TaskAtSound(task, p);
    assert task[p..][..|TaskHead|] == TaskHead;
    ContainsAt(task, TaskHead, p);
    assert TaskHead == "Now given a task" + ":";
    ContainsPrefixOf(task, "Now given a task", ":");
  }

  /** A text answer that names an ANSWER action always yields an answer or an
      unmatched pattern, never the unbound-answer error. */
  lemma TextAnswerBound(processDir: string, messages: seq<Value>)
    ensures Prepare(processDir, true, messages) != Err(NameError("answer_content")) ||
            !(|messages| >= 2 && Subscript(messages[|messages| - 1], "content").Ok? &&
              Subscript(messages[|messages| - 1], "content").value.Str?)
  {
    if |messages| >= 2 && Subscript(messages[|messages| - 1], "content").Ok? &&
       Subscript(messages[|messages| - 1], "content").value.Str? {
      var a := Subscript(messages[|messages| - 1], "content").value.s;
      if Contains(a, "Action: ANSWER") {
        assert "Action: ANSWER" == "Action: " + "ANSWER";
        ContainsSuffixOf(a, "Action: ", "ANSWER");
      }
    }
  }

  /** What the evaluation reports: an accuracy (0, 1 or none) and a text. */
  datatype Report = Report(accuracy: Option<nat>, text: string)

  /** How one evaluation ends: with a report, or with the process exiting. */
  datatype Evaluation = Reported(report: Report) | ProcessExit

  /** `auto_eval_by_gpt4v(process_dir, client, img_num)`. Whether the log
      exists, its decoded messages, the directory listing (taken in the
      order given, standing for `sorted(os.listdir(...))`) and the judge's
      answers are inputs; the
      attached screenshots and the deployments called are returned beside
      the result. */
  method AutoEvalByGpt4v(processDir: string, fileExists: bool, messages: seq<Value>, names: seq<string>,
                         imgNum: int, outcomes: nat -> CallOutcome)
    returns (taskId: string, r: Result<Evaluation>, attached: seq<string>, models: seq<string>)
    ensures taskId == Basename(processDir)
    ensures Prepare(processDir, fileExists, messages).Err? ==>
              r == Err(Prepare(processDir, fileExists, messages).error) && models == []
    ensures Prepare(processDir, fileExists, messages).Ok? && Prepare(processDir, fileExists, messages).value.EarlyReport? ==>
              r == Ok(Reported(Report(Some(0), Prepare(processDir, fileExists, messages).value.text))) && models == []
    ensures Prepare(processDir, fileExists, messages).Ok? && Prepare(processDir, fileExists, messages).value.Ready? ==>
              attached == Attached(names, imgNum) && 1 <= |models| <= MaxCalls &&
              (forall k :: 0 <= k < |models| ==> models[k] == ApiModels[k % 3]) &&
              r.Ok? &&
              (r.value.ProcessExit? <==> Rotation(outcomes, 0).Exited?) &&
              (Rotation(outcomes, 0).GaveUp? ==> r.value == Reported(Report(Some(0), "API call failed"))) &&
              (Rotation(outcomes, 0).Answered? ==>
                 var reply := Rotation(outcomes, 0).content;
                 r.value == Reported(Report(Verdict(reply), Strip(reply))))
  {
    taskId := Basename(processDir);
    attached, models := [], [];
    var prepared := Prepare(processDir, fileExists, messages);
    if prepared.Err? {
      return taskId, Err(prepared.error), attached, models;
    }
    match prepared.value
    case EarlyReport(text) =>
      r := Ok(Reported(Report(Some(0), text)));
    case Ready(task, answer) =>
      attached := Attached(names, imgNum);
      var call;
      call, models := CallRotating(outcomes);
      match call
      case Answered(reply) =>
        r := Ok(Reported(Report(Verdict(reply), Strip(reply))));
      case GaveUp =>
        r := Ok(Reported(Report(Some(0), "API call failed")));
      case Exited =>
        r := Ok(ProcessExit);
  }
}

/** The thought-and-judge annotation pass over a recorded trajectory: the
    retrying model call with its judge-score extraction, and the walk over the
    logged messages that builds the training conversation. The model itself is
    an input: for the k-th annotated action, `thoughts(k)` and `judges(k)` give
    the outcome of each successive attempt of the two calls. */
module StepEval {
  import opened Common
  import opened Json
  import MapAction

  // ---------------------------------------------------------------------------
  // Judge score extraction

  /** The literal part of both score patterns, compared case-insensitively. */
  const ScoreLabel := "expected value:"

  predicate HasNewline(s: string, i: nat, j: nat)
    requires i <= j <= |s|
  {
    '\n' in s[i..j]
  }

  /** The number captured by `Expected value:\s*(\d+)` (or, when `needNewline`,
      by `Expected value:\s*\n\s*(\d+)`) matched at position `i`. A greedy
      `\s*` followed by a digit can only stop at the end of the whitespace
      run; the `\n` form backtracks to the run's last newline, so it matches
      exactly when that run holds a newline, and captures the same digits. */
  function ScoreAt(s: string, i: nat, needNewline: bool): (r: Option<nat>)
    requires i <= |s|
  {
    if LabelAt(s, i) then CaptureAfter(s, i + |ScoreLabel|, needNewline) else None
  }

  /** "Expected value:" in any letter case starts at `i`. */
  predicate LabelAt(s: string, i: nat)
    requires i <= |s|
  {
    |s| - i >= |ScoreLabel| && LowerIs(s[i..i + |ScoreLabel|], ScoreLabel)
  }

  /** `a.lower() == b`, letter by letter. */
  predicate LowerIs(a: string, b: string) {
    if a == [] || b == [] then a == b
    else LowerChar(a[0]) == b[0] && LowerIs(a[1..], b[1..])
  }

  /** The digits after the whitespace run that starts at `j`. */
  function CaptureAfter(s: string, j: nat, needNewline: bool): Option<nat>
    requires j <= |s|
  {
    var w := SpaceEnd(s, j);
    var e := DigitEnd(s, w);
    if e == w || (needNewline && !HasNewline(s, j, w)) then None
    else Some(DigitsIn(s, w, e))
  }

  /** The end of the whitespace run starting at `j`. */
  function SpaceEnd(s: string, j: nat): (r: nat)
    requires j <= |s|
    decreases |s| - j
    ensures j <= r <= |s|
  {
    if j < |s| && IsSpace(s[j]) then SpaceEnd(s, j + 1) else j
  }

  /** The end of the digit run starting at `j`. */
  function DigitEnd(s: string, j: nat): (r: nat)
    requires j <= |s|
    decreases |s| - j
    ensures j <= r <= |s|
  {
    if j < |s| && IsDigit(s[j]) then DigitEnd(s, j + 1) else j
  }

  /** `int()` of the digits `s[w..e]`. */
  function DigitsIn(s: string, w: nat, e: nat): nat
    requires w <= e <= |s|
    decreases e - w
  {
    if e == w then 0
    else DigitsIn(s, w, e - 1) * 10 + (if IsDigit(s[e - 1]) then s[e - 1] as int - '0' as int else 0)
  }

  /** On a run of digits, the value read is the decimal value of the run. */
  lemma {:induction false} DigitsInValue(s: string, w: nat, e: nat)
    requires w <= e <= |s| && forall k :: w <= k < e ==> IsDigit(s[k])
    ensures DigitsIn(s, w, e) == DigitsValue(s[w..e])
    decreases e - w
  {
    if e > w {
      DigitsInValue(s, w, e - 1);
      assert s[w..e][..e - w - 1] == s[w..e - 1];
    }
  }

  /** Every match of the newline form is a match of the plain form, with the
      same captured number. */
  lemma NewlineFormIsPlain(s: string, i: nat)
    requires i <= |s|
    requires ScoreAt(s, i, true).Some?
    ensures ScoreAt(s, i, false) == ScoreAt(s, i, true)
  {
  }

  /** No match starts anywhere in `s[from..]`. */
  predicate NoScoreFrom(s: string, from: nat, needNewline: bool)
    decreases |s| + 1 - from
  {
    from > |s| || (ScoreAt(s, from, needNewline).None? && NoScoreFrom(s, from + 1, needNewline))
  }

  /** A match at `k` rules out "no match from `from`" for every `from` up to `k`. */
  lemma {:induction false} MatchAt(s: string, from: nat, k: nat, needNewline: bool)
    requires from <= k <= |s| && ScoreAt(s, k, needNewline).Some?
    ensures !NoScoreFrom(s, from, needNewline)
    decreases k - from
  {
    if from < k {
      MatchAt(s, from + 1, k, needNewline);
    }
  }

  /** The position of the leftmost match at or after `from`. */
  function FirstScoreFrom(s: string, from: nat, needNewline: bool): (r: Option<nat>)
    requires from <= |s|
    decreases |s| - from
    ensures r.Some? ==> from <= r.value <= |s| && ScoreAt(s, r.value, needNewline).Some?
    ensures r.Some? ==> forall k :: from <= k < r.value ==> ScoreAt(s, k, needNewline).None?
    ensures r.None? <==> NoScoreFrom(s, from, needNewline)
  {
    if ScoreAt(s, from, needNewline).Some? then Some(from)
    else if from == |s| then None
    else FirstScoreFrom(s, from + 1, needNewline)
  }

  /** `re.search(pattern, s)`: the capture of the leftmost match. */
  function SearchScore(s: string, needNewline: bool): Option<nat> {
    match FirstScoreFrom(s, 0, needNewline)
    case Some(j) => ScoreAt(s, j, needNewline)
    case None => None
  }

  /** The score of a judge reply: the first pattern's match when it lies in
      0..10; otherwise the second pattern's match when there is one, however
      large; otherwise the first pattern's out-of-range match; None (meaning
      try again) when neither pattern matches. */
  function JudgeScore(content: string): Option<nat> {
    var first := SearchScore(content, false);
    if first.Some? && first.value <= 10 then first
    else
      var second := SearchScore(content, true);
      if second.Some? then second else first
  }

  /** A reply is retried exactly when "Expected value:" followed by digits
      occurs nowhere in it; the first such number wins when it is at most 10;
      and a returned score is always the number written after some
      "Expected value:". */
  lemma JudgeScoreMatches(content: string)
    ensures JudgeScore(content).None? <==> NoScoreFrom(content, 0, false)
    ensures SearchScore(content, false).Some? && SearchScore(content, false).value <= 10 ==>
              JudgeScore(content) == SearchScore(content, false)
    ensures JudgeScore(content).Some? ==>
              exists i :: 0 <= i <= |content| && ScoreAt(content, i, false) == JudgeScore(content)
  {
    var first := FirstScoreFrom(content, 0, false);
    var second := FirstScoreFrom(content, 0, true);
    if second.Some? {
      NewlineFormIsPlain(content, second.value);
      MatchAt(content, 0, second.value, false);
    }
    if JudgeScore(content).Some? {
      if first.Some? && (ScoreAt(content, first.value, false).value <= 10 || second.None?) {
        assert ScoreAt(content, first.value, false) == JudgeScore(content);
      } else {
        assert ScoreAt(content, second.value, false) == JudgeScore(content);
      }
    }
  }

  /** An out-of-range score is still returned when the reply has no newline
      form to fall back on. */
  lemma OutOfRangeScoreKept(head: string, digits: string)
    requires |head| == |ScoreLabel| && LowerIs(head, ScoreLabel)
    requires digits != [] && forall i :: 0 <= i < |digits| ==> IsDigit(digits[i])
    requires DigitsValue(digits) > 10
    ensures JudgeScore(head + " " + digits) == Some(DigitsValue(digits))
  {
    var s := head + " " + digits;
    var n := |ScoreLabel|;
    assert LabelAt(s, 0) by {
      assert s[0..n] == head;
    }
    CaptureOfDigits(s, n, digits);
    assert FirstScoreFrom(s, 0, false) == Some(0);
    assert FirstScoreFrom(s, 0, true).None? by {
      assert forall k :: 0 <= k < |s| ==> s[k] != '\n' by {
        LowerIsLetters(head, ScoreLabel);
      }
      NoNewlineForm(s, 0);
    }
  }

  /** After the label come one space and the digits, to the end of the text. */
  lemma CaptureOfDigits(s: string, n: nat, digits: string)
    requires n < |s| && s[n] == ' ' && s[n + 1..] == digits
    requires digits != [] && forall i :: 0 <= i < |digits| ==> IsDigit(digits[i])
    ensures CaptureAfter(s, n, false) == Some(DigitsValue(digits))
    ensures CaptureAfter(s, n, true).None?
  {
    assert SpaceEnd(s, n) == n + 1 by {
      assert s[n + 1] == digits[0];
      assert SpaceEnd(s, n + 1) == n + 1;
    }
    assert forall k :: n + 1 <= k < |s| ==> IsDigit(s[k]) by {
      assert forall k :: n + 1 <= k < |s| ==> s[k] == digits[k - n - 1];
    }
    DigitsToEnd(s, n + 1);
    DigitsInValue(s, n + 1, |s|);
    assert s[n + 1..|s|] == digits;
    assert !HasNewline(s, n, n + 1);
  }

  lemma {:induction false} DigitsToEnd(s: string, i: nat)
    requires i <= |s|
    requires forall k :: i <= k < |s| ==> IsDigit(s[k])
    ensures DigitEnd(s, i) == |s|
    decreases |s| - i
  {
    if i < |s| {
      DigitsToEnd(s, i + 1);
    }
  }

  /** A text without newlines never matches the newline form. */
  lemma {:induction false} NoNewlineForm(s: string, from: nat)
    requires forall k :: 0 <= k < |s| ==> s[k] != '\n'
    ensures NoScoreFrom(s, from, true)
    decreases |s| + 1 - from
  {
    if from <= |s| {
      NoNewlineForm(s, from + 1);
    }
  }

  /** Matching the label, a text holds no newline. */
  lemma {:induction false} LowerIsLetters(a: string, b: string)
    requires LowerIs(a, b) && '\n' !in b
    ensures forall k :: 0 <= k < |a| ==> a[k] != '\n'
  {
    if a != [] && b != [] {
      LowerIsLetters(a[1..], b[1..]);
      assert forall k :: 1 <= k < |a| ==> a[k] == a[1..][k - 1];
    }
  }

  // ---------------------------------------------------------------------------
  // The retrying model call

  /** One attempt of a model call: a reply's text, or an exception's message. */
  datatype Outcome = Replied(content: string) | Raised(message: string)

  datatype CallKind = ThoughtCall | JudgeCall

  /** What a call returns when it returns something: a thought call the reply
      text (or the content-filter sentinel, which is text too), a judge call
      the reply and its score. */
  datatype Reply = Text(text: string) | Scored(content: string, score: nat)

  const ContentFilterSentinel := "CONTENT_FILTER_TRIGGERED"

  /** The counter is bumped before each attempt and the call gives up when it
      reaches 20, so 19 attempts are made at most. */
  const MaxAttempts := 19

  predicate IsContentFilter(message: string) {
    Contains(message, "ResponsibleAIPolicyViolation") || Contains(message, "content_filter")
  }

  /** The effect of one attempt: None to go round again, otherwise what the
      call returns (or raises). Only a judge reply without a score is retried;
      any other exception reaches the `model_idx += 1` of a local that was
      never bound, which raises. */
  function Attempt(kind: CallKind, o: Outcome): Option<Result<Option<Reply>>> {
    match o
    case Replied(content) =>
      if kind == ThoughtCall then Some(Ok(Some(Text(content))))
      else (match JudgeScore(content)
            case Some(score) => Some(Ok(Some(Scored(content, score))))
            case None => None)
    case Raised(message) =>
      if IsContentFilter(message) then Some(Ok(Some(Text(ContentFilterSentinel))))
      else if Contains(message, "Invalid image data.") then Some(Ok(None))
      else Some(Err(NameError("model_idx")))
  }

  /** What the call returns when attempts start at `j`: the first attempt
      that does not ask to go round again decides, and the call gives up
      with None once the 19th attempt has asked to. */
  function Retried(kind: CallKind, outcome: nat -> Outcome, j: nat): Result<Option<Reply>>
    requires j < MaxAttempts
    decreases MaxAttempts - j
  {
    match Attempt(kind, outcome(j))
    case Some(result) => result
    case None => if j + 1 == MaxAttempts then Ok(None) else Retried(kind, outcome, j + 1)
  }

  /** Attempts 0 .. n - 1 all asked to go round again. */
  predicate RetriedAll(kind: CallKind, outcome: nat -> Outcome, n: nat) {
    n == 0 || (RetriedAll(kind, outcome, n - 1) && Attempt(kind, outcome(n - 1)).None?)
  }

  /** `_call_api_with_retry`, with `outcome(j)` the result of the j-th
      attempt. */
  method CallWithRetry(kind: CallKind, outcome: nat -> Outcome) returns (r: Result<Option<Reply>>, calls: nat)
    ensures r == Retried(kind, outcome, 0)
    ensures 1 <= calls <= MaxAttempts
    ensures RetriedAll(kind, outcome, calls - 1)
    ensures Attempt(kind, outcome(calls - 1)).Some? ==> r == Attempt(kind, outcome(calls - 1)).value
    ensures Attempt(kind, outcome(calls - 1)).None? ==> calls == MaxAttempts && r == Ok(None)
  {
    var retry := 0;
    calls := 0;
    while true
      invariant retry == calls <= MaxAttempts
      invariant RetriedAll(kind, outcome, calls)
      invariant calls < MaxAttempts ==> Retried(kind, outcome, 0) == Retried(kind, outcome, calls)
      invariant calls == MaxAttempts ==> Retried(kind, outcome, 0) == Ok(None)
      decreases MaxAttempts - retry
    {
      retry := retry + 1;
      if retry == 20 {
        return Ok(None), calls;
      }
      var attempt := TryOnce(kind, outcome(calls));
      RetriedNext(kind, outcome, calls);
      calls := calls + 1;
      if attempt.Some? {
        return attempt.value, calls;
      }
    }
  }

  /** What attempt `j` decides, once attempts `0 .. j - 1` asked to go
      round again. */
  lemma RetriedNext(kind: CallKind, outcome: nat -> Outcome, j: nat)
    requires j < MaxAttempts && RetriedAll(kind, outcome, j)
    requires Retried(kind, outcome, 0) == Retried(kind, outcome, j)
    ensures Attempt(kind, outcome(j)).Some? ==> Retried(kind, outcome, 0) == Attempt(kind, outcome(j)).value
    ensures Attempt(kind, outcome(j)).None? ==>
              RetriedAll(kind, outcome, j + 1) &&
              (j + 1 < MaxAttempts ==> Retried(kind, outcome, 0) == Retried(kind, outcome, j + 1)) &&
              (j + 1 == MaxAttempts ==> Retried(kind, outcome, 0) == Ok(None))
  {
  }

  /** The body of one attempt: the call's reply, or the handling of the
      exception it raised. */
  method TryOnce(kind: CallKind, o: Outcome) returns (attempt: Option<Result<Option<Reply>>>)
    ensures attempt == Attempt(kind, o)
  {
    match o
    case Raised(message) =>
      if IsContentFilter(message) {
        return Some(Ok(Some(Text(ContentFilterSentinel))));
      }
      if Contains(message, "Invalid image data.") {
        return Some(Ok(None));
      }
      return Some(Err(NameError("model_idx")));
    case Replied(content) =>
      if kind == JudgeCall {
        var score := JudgeScore(content);
        if score.Some? {
          return Some(Ok(Some(Scored(content, score.value))));
        }
        return None;
      }
      return Some(Ok(Some(Text(content))));
  }

  lemma {:induction false} RetriedShape(kind: CallKind, outcome: nat -> Outcome, j: nat)
    requires j < MaxAttempts
    decreases MaxAttempts - j
    ensures var r := Retried(kind, outcome, j);
            r.Ok? && r.value.Some? ==>
              if kind == ThoughtCall then r.value.value.Text?
              else r.value.value.Scored? || r.value.value == Text(ContentFilterSentinel)
  {
    if Attempt(kind, outcome(j)).None? && j + 1 < MaxAttempts {
      RetriedShape(kind, outcome, j + 1);
    }
  }

  /** A content-filter error on the first attempt stops the call at once. */
  lemma ContentFilterStops(kind: CallKind, outcome: nat -> Outcome)
    requires outcome(0).Raised? && IsContentFilter(outcome(0).message)
    ensures Attempt(kind, outcome(0)) == Some(Ok(Some(Text(ContentFilterSentinel))))
  {
  }

  // ---------------------------------------------------------------------------
  // Building the conversation

  /** A logged message, as far as the pass looks at it: message_type "action"
      with its processed action record, "final_answer" with its text, or
      anything else. */
  datatype Message =
    | ActionMessage(record: Dict)
    | FinalAnswerMessage(text: string)
    | OtherMessage

  datatype Turn =
    | StartTurn(content: string)
    | AssistantTurn(value: string, score: nat, judge: string)
    | UserTurn

  datatype EvalResult =
    | NoInteractFile
    | Abandoned
    | Annotated(conversations: seq<Turn>, images: seq<string>)

  /** The state of the walk: the conversation and image list being built,
      the image window (as screenshot indices), every annotated message and
      the messages whose thoughts are quoted back to the model (as message
      indices). */
  datatype Walk = Walk(convo: seq<Turn>, images: seq<string>, window: seq<nat>,
                       previousActions: seq<nat>, previousThoughtActions: seq<nat>)

  const ImagePrompt := "<image>Please analyze the attached screenshot and give the Thought and Action."

  function ShotPath(processDir: string, k: nat): string {
    processDir + "/screenshot" + NatToString(k) + ".png"
  }

  /** The indices of the messages below `n` that are processed, in order. */
  function Eligible(messages: seq<Message>, n: nat): (r: seq<nat>)
    requires n <= |messages|
    ensures forall j :: 0 <= j < |r| ==> r[j] < n && !messages[r[j]].OtherMessage?
  {
    if n == 0 then []
    else Eligible(messages, n - 1) + (if messages[n - 1].OtherMessage? then [] else [n - 1])
  }

  /** The annotated messages are exactly the actions and final answers among
      the first `n`, in order of appearance. */
  lemma {:induction false} EligibleIndices(messages: seq<Message>, n: nat)
    requires n <= |messages|
    ensures forall i: nat :: i in Eligible(messages, n) <==> i < n && !messages[i].OtherMessage?
    ensures forall j, k :: 0 <= j < k < |Eligible(messages, n)| ==> Eligible(messages, n)[j] < Eligible(messages, n)[k]
  {
    if n > 0 {
      EligibleIndices(messages, n - 1);
      var prev := Eligible(messages, n - 1);
      assert forall j :: 0 <= j < |prev| ==> prev[j] in prev;
      assert Eligible(messages, n) == prev + (if messages[n - 1].OtherMessage? then [] else [n - 1]);
    }
  }

  lemma EligibleStep(messages: seq<Message>, n: nat)
    requires n < |messages|
    ensures Eligible(messages, n + 1) == Eligible(messages, n) + (if messages[n].OtherMessage? then [] else [n])
    ensures messages[n].OtherMessage? ==> Eligible(messages, n + 1) == Eligible(messages, n)
  {
    if messages[n].OtherMessage? {
      assert Eligible(messages, n) + [] == Eligible(messages, n);
    }
  }

  /** Scanning further only extends the processed list. */
  lemma {:induction false} EligiblePrefix(messages: seq<Message>, a: nat, b: nat)
    requires a <= b <= |messages|
    ensures Eligible(messages, a) <= Eligible(messages, b)
    decreases b - a
  {
    if a < b {
      EligiblePrefix(messages, a, b - 1);
    }
  }

  /** The last at most `n` elements of `s`. */
  function LastN<T>(s: seq<T>, n: nat): (r: seq<T>)
  {
    if |s| <= n then s else s[|s| - n..]
  }

  /** Append then drop the oldest element when over the cap: the list keeps
      the last `n` of everything appended. */
  lemma PushCapped<T>(s: seq<T>, x: T, n: nat)
    requires n > 0
    ensures (var t := LastN(s, n) + [x]; if |t| > n then t[1..] else t) == LastN(s + [x], n)
  {
  }

  /** The screenshot indices 0, 1, …, shots - 1, of which the window keeps the last 3. */
  function Shots(shots: nat): (r: seq<nat>)
    ensures |r| == shots
  {
    if shots == 0 then [] else Shots(shots - 1) + [shots - 1]
  }

  lemma {:induction false} ShotsIndex(n: nat)
    ensures forall i :: 0 <= i < n ==> Shots(n)[i] == i
  {
    if n > 0 {
      ShotsIndex(n - 1);
    }
  }

  /** The window holds at most 3 screenshots, the most recent ones, in
      chronological order. */
  lemma RecentWindow(shots: nat)
    ensures |LastN(Shots(shots), 3)| == if shots < 3 then shots else 3
    ensures forall i :: 0 <= i < |LastN(Shots(shots), 3)| ==>
              LastN(Shots(shots), 3)[i] == shots - |LastN(Shots(shots), 3)| + i
  {
    ShotsIndex(shots);
  }

  /** The conversation shape: empty, or the start message followed by
      alternating assistant and user entries that ends with an assistant
      entry. */
  predicate Alternating(c: seq<Turn>) {
    |c| % 2 == 0 &&
    (|c| > 0 ==> c[0].StartTurn? && c[|c| - 1].AssistantTurn?) &&
    forall i :: 0 < i < |c| ==> (if i % 2 == 1 then c[i].AssistantTurn? else c[i] == UserTurn)
  }

  /** The `action_str` of a processed message, the final answer being wrapped
      without escaping when it is not already a finished call. */
  function ActionText(m: Message): (r: Result<string>)
    requires !m.OtherMessage?
  {
    match m
    case ActionMessage(record) =>
      var a :- MapAction.MapProcessed(record, true);
      Ok("\nAction: " + a)
    case FinalAnswerMessage(t) =>
      if Contains(t, "finished(content=") then Ok("\nAction: " + t)
      else Ok("\nAction: finished(content='" + t + "')")
  }

  /** The action text of every logged message, in log order; an other
      message has none and holds an empty placeholder that is never read. */
  function ActionTexts(messages: seq<Message>): (r: seq<Result<string>>)
    ensures |r| == |messages|
    ensures forall i :: 0 <= i < |messages| && !messages[i].OtherMessage? ==> r[i] == ActionText(messages[i])
  {
    seq(|messages|, i requires 0 <= i < |messages| =>
          if messages[i].OtherMessage? then Ok("") else ActionText(messages[i]))
  }

  /** A final answer that is not already a finished call is quoted as it
      stands: its text appears unchanged between the quotes and nothing is
      added to it, so a quote inside it is not escaped. A text that is already
      a finished call is used as the action itself. */
  lemma FinalAnswerVerbatim(t: string)
    ensures var r := ActionText(FinalAnswerMessage(t));
            r.Ok? && StartsWith(r.value, "\nAction: ") &&
            (Contains(t, "finished(content=") ==> r.value[|"\nAction: "|..] == t) &&
            (!Contains(t, "finished(content=") ==>
               var open := |"\nAction: finished(content='"|;
               |r.value| == open + |t| + 2 && r.value[open..open + |t|] == t && EndsWith(r.value, "')"))
  {
  }

  /** The task text of the first logged message: its content, or the text of
      the content's first part when the content is a list. */
  function TaskInfo(content: Value): Result<string> {
    match content
    case Str(s) => Ok(s)
    case List(_) =>
      var part :- Index(content, 0);
      var text :- Subscript(part, "text");
      if text.Str? then Ok(text.s) else Err(TypeError)
    case _ => Err(TypeError)
  }

  /** `re.search(r"(.+?)Please interact with", task)` succeeds: some
      occurrence is preceded by a character other than a newline. */
  predicate TaskMatches(task: string) {
    exists j :: 1 <= j <= |task| && task[j - 1] != '\n' && StartsWith(task[j..], "Please interact with")
  }

  /** The checks made before the walk: the task text must mention "Now given a
      task" and match the task pattern, and the first message's content must be
      text to have the image prompt appended. */
  function StartMessage(content: Value): (r: Result<Turn>)
    ensures r.Ok? ==> content.Str? && r.value == StartTurn(content.s + ImagePrompt)
    ensures r.Ok? <==> content.Str? && Contains(content.s, "Now given a task") && TaskMatches(content.s)
  {
    var task :- TaskInfo(content);
    if !Contains(task, "Now given a task") then Err(AssertionError)
    else if !TaskMatches(task) then Err(AttributeError("group"))
    else if !content.Str? then Err(TypeError)
    else Ok(StartTurn(content.s + ImagePrompt))
  }

  /** How one annotation step ends, decided from the two call results. */
  datatype Step =
    | Raise(error: Error)
    | Abandon
    | KeepSoFar
    | Annotate(thought: string, judge: string, score: nat)

  /** The source's handling of the two results: an exception from either call
      propagates (the thought's first); a missing or filtered thought, or a
      missing judgement, abandons the trajectory; a filtered judgement keeps
      what was built so far. The last two branches cannot be reached from
      `CallWithRetry` and mirror the unpacking errors Python would raise. */
  function StepOf(thought: Result<Option<Reply>>, judged: Result<Option<Reply>>): Step {
    if thought.Err? then Raise(thought.error)
    else if judged.Err? then Raise(judged.error)
    else if thought.value.None? || thought.value.value == Text(ContentFilterSentinel) then Abandon
    else if judged.value.None? then Abandon
    else if judged.value.value == Text(ContentFilterSentinel) then KeepSoFar
    else if !thought.value.value.Text? then Raise(TypeError)
    else if !judged.value.value.Scored? then Raise(ValueError)
    else Annotate(thought.value.value.text, judged.value.value.content, judged.value.value.score)
  }

  /** The two model calls of one step (made in parallel by the source) and
      the handling of their results. */
  method AnnotateStep(thoughtOutcome: nat -> Outcome, judgeOutcome: nat -> Outcome) returns (step: Step)
    ensures step == StepOf(Retried(ThoughtCall, thoughtOutcome, 0), Retried(JudgeCall, judgeOutcome, 0))
  {
    var thought, thoughtCalls := CallWithRetry(ThoughtCall, thoughtOutcome);
    var judged, judgeCalls := CallWithRetry(JudgeCall, judgeOutcome);
    step := StepOf(thought, judged);
  }

  /** The step of the k-th annotated message: its thought and judge calls,
      each with its own outcomes, retried. */
  function StepAt(thoughts: nat -> nat -> Outcome, judges: nat -> nat -> Outcome, k: nat): Step {
    StepOf(Retried(ThoughtCall, thoughts(k), 0), Retried(JudgeCall, judges(k), 0))
  }

  /** The steps of the annotated messages in order. */
  function Steps(thoughts: nat -> nat -> Outcome, judges: nat -> nat -> Outcome): (r: nat -> Step)
    ensures forall k :: r(k) == StepAt(thoughts, judges, k)
  {
    (k: nat) => StepAt(thoughts, judges, k)
  }

  /** The assistant entry of an annotated message whose action text is `a`:
      the thought, then the action text, with the judge's score and content. */
  predicate Annotates(t: Turn, a: Result<string>, step: Step) {
    a.Ok? && step.Annotate? &&
    t == AssistantTurn("Thought: " + step.thought + a.value, step.score, step.judge)
  }

  /** What one action or final-answer message does: the walk goes on with its
      entry and a user entry appended, or ends with a result. */
  datatype Visit = GoOn(convo: seq<Turn>) | Stop(result: Result<EvalResult>)

  /** The visit of a message whose action text is `a` when `convo` has been
      built from `shots` annotated messages and `step` is what its model
      calls give. A failing action text raises before the calls; a raising
      call raises; a missing or filtered thought, or a missing judgement,
      abandons; a filtered judgement returns what was built so far, the
      current screenshot included. */
  function VisitOf(convo: seq<Turn>, shots: nat, a: Result<string>, step: Step, processDir: string): Visit
    requires |convo| > 0
  {
    if a.Err? then Stop(Err(a.error))
    else
      match step
      case Raise(e) => Stop(Err(e))
      case Abandon => Stop(Ok(Abandoned))
      case KeepSoFar => Stop(Ok(Annotated(convo[..|convo| - 1], ShotPaths(processDir, shots + 1))))
      case Annotate(thought, judge, score) =>
        GoOn(convo + [AssistantTurn("Thought: " + thought + a.value, score, judge), UserTurn])
  }

  /** The conversation while it is being built: the start message and one
      assistant entry then one user entry per annotated message. */
  predicate Building(convo: seq<Turn>, steps: nat) {
    |convo| == 1 + 2 * steps && PairsUpTo(convo, steps)
  }

  /** `convo` opens with the start message and holds `k` assistant/user pairs
      after it. */
  predicate PairsUpTo(convo: seq<Turn>, k: nat)
    requires 2 * k < |convo|
  {
    if k == 0 then convo[0].StartTurn?
    else PairsUpTo(convo, k - 1) && convo[2 * k - 1].AssistantTurn? && convo[2 * k] == UserTurn
  }

  lemma {:induction false} PairsShape(convo: seq<Turn>, k: nat)
    requires 2 * k < |convo| && PairsUpTo(convo, k)
    ensures convo[0].StartTurn?
    ensures forall i :: 0 < i <= 2 * k ==> (if i % 2 == 1 then convo[i].AssistantTurn? else convo[i] == UserTurn)
  {
    if k > 0 {
      PairsShape(convo, k - 1);
    }
  }

  lemma {:induction false} PairsExtend(convo: seq<Turn>, k: nat, tail: seq<Turn>)
    requires 2 * k < |convo| && PairsUpTo(convo, k)
    ensures PairsUpTo(convo + tail, k)
  {
    if k > 0 {
      PairsExtend(convo, k - 1, tail);
    }
  }

  /** Dropping the final element of a conversation being built leaves the
      finished shape. */
  lemma BuildingDropsLast(convo: seq<Turn>, steps: nat)
    requires Building(convo, steps)
    ensures Alternating(convo[..|convo| - 1]) && |convo[..|convo| - 1]| == 2 * steps
  {
    PairsShape(convo, steps);
  }

  lemma BuildingStep(convo: seq<Turn>, steps: nat, t: Turn)
    requires Building(convo, steps) && t.AssistantTurn?
    ensures Building(convo + [t, UserTurn], steps + 1)
  {
    PairsExtend(convo, steps, [t, UserTurn]);
  }

  /** The image list after `n` annotated messages. */
  function ShotPaths(processDir: string, n: nat): (r: seq<string>)
    ensures |r| == n
  {
    if n == 0 then [] else ShotPaths(processDir, n - 1) + [ShotPath(processDir, n - 1)]
  }

  /** Entry `k` of the image list is `screenshot{k}.png`. */
  lemma {:induction false} ShotPathsIndex(processDir: string, n: nat)
    ensures forall k :: 0 <= k < n ==> ShotPaths(processDir, n)[k] == ShotPath(processDir, k)
  {
    if n > 0 {
      ShotPathsIndex(processDir, n - 1);
    }
  }

  /** `xs.append(x)` then `xs.pop(0)` when over 3: when `xs` held the last 3
      of `all`, it now holds the last 3 of `all + [x]`. */
  method PushRecent<T>(xs: seq<T>, x: T, ghost all: seq<T>) returns (ys: seq<T>)
    requires xs == LastN(all, 3)
    ensures ys == LastN(all + [x], 3)
  {
    ys := xs + [x];
    if |ys| > 3 {
      ys := ys[1..];
    }
    PushCapped(all, x, 3);
  }

  /** What holds between two messages: one screenshot path per annotated
      message, the window is the last 3 of those screenshots, the quoted
      thoughts are those of the last 3 annotated messages, and the
      conversation has one assistant/user pair per annotated message. */
  predicate Valid(w: Walk, processDir: string) {
    |w.images| == |w.previousActions| &&
    w.images == ShotPaths(processDir, |w.images|) &&
    w.window == LastN(Shots(|w.images|), 3) &&
    w.previousThoughtActions == LastN(w.previousActions, 3) &&
    Building(w.convo, |w.previousActions|)
  }

  /** What a step that ends the walk early returns. */
  predicate EarlyEnd(r: Result<EvalResult>, w: Walk, processDir: string) {
    r.Ok? && r.value.Annotated? ==>
      Alternating(r.value.conversations) &&
      |r.value.conversations| == 2 * |w.previousActions| &&
      |r.value.images| == |w.images| + 1 &&
      r.value.images == ShotPaths(processDir, |r.value.images|)
  }

  /** The bookkeeping of one annotated message at index `idx`: the next
      screenshot path, the window and the quoted thoughts slide, and the
      assistant entry and a user entry are appended. */
  method Extend(w: Walk, idx: nat, turn: Turn, processDir: string) returns (next: Walk)
    requires Valid(w, processDir) && turn.AssistantTurn?
    ensures Valid(next, processDir)
    ensures next.previousActions == w.previousActions + [idx]
    ensures next.convo == w.convo + [turn, UserTurn]
  {
    var k := |w.images|;
    var images := w.images + [ShotPath(processDir, k)];
    assert Shots(k + 1) == Shots(k) + [k];
    assert ShotPaths(processDir, k + 1) == images;
    var window := PushRecent(w.window, k, Shots(k));
    var previousThoughtActions := PushRecent(w.previousThoughtActions, idx, w.previousActions);
    BuildingStep(w.convo, |w.previousActions|, turn);
    next := Walk(w.convo + [turn, UserTurn], images, window, w.previousActions + [idx], previousThoughtActions);
  }

  /** What the source returns when the judge hits the content filter: the
      conversation so far without its last entry, and the image list with
      the current screenshot already added. */
  lemma KeepSoFarShape(w: Walk, processDir: string)
    requires Valid(w, processDir)
    ensures EarlyEnd(Ok(Annotated(w.convo[..|w.convo| - 1], w.images + [ShotPath(processDir, |w.images|)])), w, processDir)
  {
    BuildingDropsLast(w.convo, |w.previousActions|);
  }

  /** The rest of the loop body once the action text is known: the step
      decides whether the walk goes on with one more annotated message or
      ends with what the function returns (or raises). */
  method Settle(w: Walk, actionText: string, step: Step, idx: nat, processDir: string)
    returns (next: Walk, stop: Option<Result<EvalResult>>)
    requires Valid(w, processDir)
    ensures stop.None? ==> Valid(next, processDir) && next.previousActions == w.previousActions + [idx]
    ensures stop.Some? ==> EarlyEnd(stop.value, w, processDir)
    ensures var v := VisitOf(w.convo, |w.images|, Ok(actionText), step, processDir);
            && (stop.Some? <==> v.Stop?)
            && (v.Stop? ==> stop.value == v.result)
            && (v.GoOn? ==> next.convo == v.convo)
  {
    next := w;
    match step
    case Raise(e) =>
      return next, Some(Err(e));
    case Abandon =>
      return next, Some(Ok(Abandoned));
    case KeepSoFar =>
      KeepSoFarShape(w, processDir);
      assert w.images + [ShotPath(processDir, |w.images|)] == ShotPaths(processDir, |w.images| + 1);
      return next, Some(Ok(Annotated(w.convo[..|w.convo| - 1], w.images + [ShotPath(processDir, |w.images|)])));
    case Annotate(thought, judge, score) =>
      var turn := AssistantTurn("Thought: " + thought + actionText, score, judge);
      next := Extend(w, idx, turn, processDir);
      return next, None;
  }

  /** One pass of the loop body for an action or final-answer message at
      index `idx`: its action text, then the two model calls for the next
      screenshot, settled as `VisitOf` says. */
  method Advance(w: Walk, m: Message, idx: nat, processDir: string,
                 thoughts: nat -> nat -> Outcome, judges: nat -> nat -> Outcome)
    returns (next: Walk, stop: Option<Result<EvalResult>>)
    requires Valid(w, processDir) && !m.OtherMessage?
    ensures stop.None? ==> Valid(next, processDir) && next.previousActions == w.previousActions + [idx]
    ensures stop.Some? ==> EarlyEnd(stop.value, w, processDir)
    ensures var v := VisitOf(w.convo, |w.images|, ActionText(m), StepAt(thoughts, judges, |w.images|), processDir);
            && (stop.Some? <==> v.Stop?)
            && (v.Stop? ==> stop.value == v.result)
            && (v.GoOn? ==> next.convo == v.convo)
  {
    next := w;
    var actionStr := ActionText(m);
    if actionStr.Err? {
      return next, Some(Err(actionStr.error));
    }
    var step := AnnotateStep(thoughts(|w.images|), judges(|w.images|));
    next, stop := Settle(w, actionStr.value, step, idx, processDir);
  }


  /** The walk over the logged messages from message `i` on, when `convo`
      has been built from the first `shots` annotated messages: the result,
      and how many messages were moved past. Other messages are passed over;
      the walk ends at the end of the log, at the first visit that stops it,
      or right after the first final answer annotated. `texts` holds the action text of
      each message. */
  function Walked(processDir: string, messages: seq<Message>, texts: seq<Result<string>>,
                  steps: nat -> Step, i: nat, convo: seq<Turn>, shots: nat): (Result<EvalResult>, nat)
    requires i <= |messages| == |texts| && |convo| > 0
    decreases |messages| - i
  {
    if i == |messages| then (Ok(Annotated(convo[..|convo| - 1], ShotPaths(processDir, shots))), i)
    else if messages[i].OtherMessage? then Walked(processDir, messages, texts, steps, i + 1, convo, shots)
    else
      match VisitOf(convo, shots, texts[i], steps(shots), processDir)
      case Stop(r) => (r, i)
      case GoOn(c) =>
        if messages[i].FinalAnswerMessage? then (Ok(Annotated(c[..|c| - 1], ShotPaths(processDir, shots + 1))), i + 1)
        else Walked(processDir, messages, texts, steps, i + 1, c, shots + 1)
  }

  /** The walk from message `i` is what one pass of the loop body leaves
      behind (`stop`, `convo'`, `images'`) followed by the walk from `i + 1`:
      the result when the pass stopped, the conversation so far right after a
      final answer, and otherwise the rest of the walk. */
  ghost predicate WalkedOn(processDir: string, messages: seq<Message>, texts: seq<Result<string>>,
                           steps: nat -> Step, i: nat, convo: seq<Turn>, shots: nat,
                           stop: Option<Result<EvalResult>>, convo': seq<Turn>, images': seq<string>)
    requires i < |messages| == |texts| && |convo| > 0
  {
    var walked := Walked(processDir, messages, texts, steps, i, convo, shots);
    if stop.Some? then walked == (stop.value, i)
    else if |convo'| == 0 then false
    else if messages[i].FinalAnswerMessage? then walked == (Ok(Annotated(convo'[..|convo'| - 1], images')), i + 1)
    else walked == Walked(processDir, messages, texts, steps, i + 1, convo', |images'|)
  }

  /** A pass that settles a message as `VisitOf` says (or passes over an
      other message) leaves the walk as `WalkedOn` describes. */
  lemma WalkedStep(processDir: string, messages: seq<Message>, texts: seq<Result<string>>,
                   steps: nat -> Step, i: nat, convo: seq<Turn>, shots: nat,
                   stop: Option<Result<EvalResult>>, convo': seq<Turn>, images': seq<string>)
    requires i < |messages| == |texts| && |convo| > 0
    requires messages[i].OtherMessage? ==> stop.None? && convo' == convo && |images'| == shots
    requires !messages[i].OtherMessage? ==>
               var v := VisitOf(convo, shots, texts[i], steps(shots), processDir);
               && (stop.Some? <==> v.Stop?)
               && (v.Stop? ==> stop.value == v.result)
               && (v.GoOn? ==> convo' == v.convo && images' == ShotPaths(processDir, shots + 1))
    ensures WalkedOn(processDir, messages, texts, steps, i, convo, shots, stop, convo', images')
  {
  }

  /** `texts` holds the action text of each action and final-answer message. */
  predicate TextsOf(texts: seq<Result<string>>, messages: seq<Message>) {
    |texts| == |messages| &&
    forall i {:trigger ActionText(messages[i])} ::
      0 <= i < |messages| && !messages[i].OtherMessage? ==> texts[i] == ActionText(messages[i])
  }

  /** `steps` gives the step of each annotated message. */
  ghost predicate StepsOf(steps: nat -> Step, thoughts: nat -> nat -> Outcome, judges: nat -> nat -> Outcome) {
    forall k: nat {:trigger StepAt(thoughts, judges, k)} :: steps(k) == StepAt(thoughts, judges, k)
  }

  /** The loop body: message `scanned` is annotated when it is an action or a
      final answer, and passed over otherwise. */
  method Scan(w: Walk, messages: seq<Message>, scanned: nat, processDir: string,
              thoughts: nat -> nat -> Outcome, judges: nat -> nat -> Outcome,
              ghost texts: seq<Result<string>>, ghost steps: nat -> Step)
    returns (next: Walk, stop: Option<Result<EvalResult>>)
    requires scanned < |messages|
    requires TextsOf(texts, messages) && StepsOf(steps, thoughts, judges)
    requires Valid(w, processDir) && w.previousActions == Eligible(messages, scanned)
    ensures stop.None? ==> Valid(next, processDir) && next.previousActions == Eligible(messages, scanned + 1)
    ensures stop.Some? ==> EarlyEnd(stop.value, w, processDir)
    ensures WalkedOn(processDir, messages, texts, steps, scanned, w.convo, |w.images|, stop, next.convo, next.images)
  {
    EligibleStep(messages, scanned);
    next, stop := w, None;
    if !messages[scanned].OtherMessage? {
      next, stop := Advance(w, messages[scanned], scanned, processDir, thoughts, judges);
      if stop.None? {
        assert next.images == ShotPaths(processDir, |w.images| + 1);
      }
    }
    WalkedStep(processDir, messages, texts, steps, scanned, w.convo, |w.images|, stop, next.convo, next.images);
  }

  /** None of the first `n` messages is a final answer. */
  predicate NoFinalBefore(messages: seq<Message>, n: nat)
    requires n <= |messages|
  {
    n == 0 || (NoFinalBefore(messages, n - 1) && !messages[n - 1].FinalAnswerMessage?)
  }

  lemma {:induction false} NoFinalBeforeAll(messages: seq<Message>, n: nat)
    requires n <= |messages| && NoFinalBefore(messages, n)
    ensures forall j :: 0 <= j < n ==> !messages[j].FinalAnswerMessage?
  {
    if n > 0 {
      NoFinalBeforeAll(messages, n - 1);
    }
  }

  /** What the walk promises about its result: the conversation has the
      finished shape with one assistant entry per annotated message, the
      images are the screenshot paths in order (one more when the judge hit the
      content filter), and the walk stopped only at the end of the log or right
      after the first final answer. `scanned` counts the messages the walk
      moved past; the annotated ones are `Eligible(messages, scanned)`. */
  predicate WalkResult(r: Result<EvalResult>, scanned: nat, messages: seq<Message>, processDir: string) {
    scanned <= |messages| &&
    (forall j :: 0 <= j < scanned - 1 ==> !messages[j].FinalAnswerMessage?) &&
    (r.Ok? && r.value.Annotated? ==>
       Alternating(r.value.conversations) &&
       |r.value.conversations| == 2 * |Eligible(messages, scanned)| &&
       r.value.images == ShotPaths(processDir, |r.value.images|) &&
       (|r.value.images| == |Eligible(messages, scanned)| || |r.value.images| == |Eligible(messages, scanned)| + 1)) &&
    (r.Ok? && r.value.Annotated? && |r.value.images| == |Eligible(messages, scanned)| ==>
       scanned == |messages| || (scanned > 0 && messages[scanned - 1].FinalAnswerMessage?))
  }

  /** A walk ended by a step keeps the promise. */
  lemma StopWalk(r: Result<EvalResult>, w: Walk, scanned: nat, messages: seq<Message>, processDir: string)
    requires scanned < |messages| && w.previousActions == Eligible(messages, scanned)
    requires Valid(w, processDir)
    requires NoFinalBefore(messages, scanned)
    requires EarlyEnd(r, w, processDir)
    ensures WalkResult(r, scanned, messages, processDir)
  {
    NoFinalBeforeAll(messages, scanned);
  }

  /** A walk that ran out of messages or stopped after a final answer keeps
      the promise. */
  lemma FinishWalk(w: Walk, scanned: nat, messages: seq<Message>, processDir: string)
    requires scanned <= |messages|
    requires Valid(w, processDir) && w.previousActions == Eligible(messages, scanned)
    requires NoFinalBefore(messages, if scanned == 0 then 0 else scanned - 1)
    requires scanned == |messages| || (scanned > 0 && messages[scanned - 1].FinalAnswerMessage?)
    ensures WalkResult(Ok(Annotated(w.convo[..|w.convo| - 1], w.images)), scanned, messages, processDir)
  {
    BuildingDropsLast(w.convo, |w.previousActions|);
    NoFinalBeforeAll(messages, if scanned == 0 then 0 else scanned - 1);
  }

  /** The conversation while it is built: `start`, then for the j-th
      annotated message (at index `idx[j]`) the assistant entry its own step
      gives, and a user entry. */
  predicate Transcript(c: seq<Turn>, start: Turn, texts: seq<Result<string>>, idx: seq<nat>,
                       steps: nat -> Step)
    decreases |idx|
  {
    if |idx| == 0 then c == [start]
    else
      var n := |idx| - 1;
      |c| == 1 + 2 * |idx| &&
      Transcript(c[..|c| - 2], start, texts, idx[..n], steps) &&
      idx[n] < |texts| && Annotates(c[|c| - 2], texts[idx[n]], steps(n)) &&
      c[|c| - 1] == UserTurn
  }

  /** The returned conversation: the transcript without its final user entry,
      and empty when nothing was annotated (the start message goes with it). */
  predicate Finished(c: seq<Turn>, start: Turn, texts: seq<Result<string>>, idx: seq<nat>,
                     steps: nat -> Step)
  {
    if |idx| == 0 then c == [] else Transcript(c + [UserTurn], start, texts, idx, steps)
  }

  /** The transcript entry by entry. */
  lemma {:induction false} TranscriptEntries(c: seq<Turn>, start: Turn, texts: seq<Result<string>>, idx: seq<nat>,
                                             steps: nat -> Step)
    requires Transcript(c, start, texts, idx, steps)
    ensures |c| == 1 + 2 * |idx| && c[0] == start
    ensures forall j :: 0 <= j < |idx| ==>
              idx[j] < |texts| &&
              Annotates(c[2 * j + 1], texts[idx[j]], steps(j)) &&
              c[2 * j + 2] == UserTurn
    decreases |idx|
  {
    if |idx| > 0 {
      var n := |idx| - 1;
      var p := c[..|c| - 2];
      TranscriptEntries(p, start, texts, idx[..n], steps);
      forall j | 0 <= j < |idx|
        ensures idx[j] < |texts| && Annotates(c[2 * j + 1], texts[idx[j]], steps(j)) &&
                c[2 * j + 2] == UserTurn
      {
        if j < n {
          assert idx[..n][j] == idx[j] && p[2 * j + 1] == c[2 * j + 1] && p[2 * j + 2] == c[2 * j + 2];
        }
      }
    }
  }

  /** The returned conversation entry by entry: it opens with the start
      message, and the j-th annotated message's assistant entry is at
      `2 * j + 1`, each followed by a user entry except the last. */
  lemma FinishedEntries(c: seq<Turn>, start: Turn, texts: seq<Result<string>>, idx: seq<nat>,
                        steps: nat -> Step)
    requires Finished(c, start, texts, idx, steps)
    ensures |c| == 2 * |idx| && (|idx| > 0 ==> c[0] == start)
    ensures forall j :: 0 <= j < |idx| ==>
              idx[j] < |texts| &&
              Annotates(c[2 * j + 1], texts[idx[j]], steps(j)) &&
              (j + 1 < |idx| ==> c[2 * j + 2] == UserTurn)
  {
    if |idx| > 0 {
      var c' := c + [UserTurn];
      TranscriptEntries(c', start, texts, idx, steps);
      forall j | 0 <= j < |idx|
        ensures idx[j] < |texts| && Annotates(c[2 * j + 1], texts[idx[j]], steps(j)) &&
                (j + 1 < |idx| ==> c[2 * j + 2] == UserTurn)
      {
        assert c'[2 * j + 1] == c[2 * j + 1];
        if j + 1 < |idx| {
          assert c'[2 * j + 2] == c[2 * j + 2];
        }
      }
    }
  }

  lemma DropLast<T>(c: seq<T>, x: T)
    requires |c| > 0 && c[|c| - 1] == x
    ensures c[..|c| - 1] + [x] == c
  {
  }

  lemma TakeAppended<T>(c: seq<T>, tail: seq<T>)
    ensures (c + tail)[..|c|] == c
  {
  }

  /** A walk result `r` that returns a conversation holds the finished
      transcript of the annotated messages `idx`. */
  predicate Returned(r: Result<EvalResult>, start: Turn, texts: seq<Result<string>>, idx: seq<nat>,
                     steps: nat -> Step) {
    r.Ok? && r.value.Annotated? ==> Finished(r.value.conversations, start, texts, idx, steps)
  }

  /** A result whose conversation, when it returns one, is the transcript
      `c` without its final user entry holds the finished transcript. */
  lemma TranscriptReturned(c: seq<Turn>, start: Turn, texts: seq<Result<string>>, idx: seq<nat>,
                           steps: nat -> Step, r: Result<EvalResult>)
    requires Transcript(c, start, texts, idx, steps)
    requires r.Ok? && r.value.Annotated? ==> r.value.conversations == c[..|c| - 1]
    ensures Returned(r, start, texts, idx, steps)
  {
    if |idx| > 0 && r.Ok? && r.value.Annotated? {
      DropLast(c, UserTurn);
    }
  }

  /** A visit that goes on extends the transcript by the message's entry. */
  lemma TranscriptStep(c: seq<Turn>, start: Turn, texts: seq<Result<string>>, idx: seq<nat>, idx': seq<nat>, i: nat,
                       steps: nat -> Step, processDir: string)
    requires i < |texts| && idx' == idx + [i]
    requires Transcript(c, start, texts, idx, steps)
    requires VisitOf(c, |idx|, texts[i], steps(|idx|), processDir).GoOn?
    ensures Transcript(VisitOf(c, |idx|, texts[i], steps(|idx|), processDir).convo, start, texts, idx', steps)
  {
    var step := steps(|idx|);
    var t := AssistantTurn("Thought: " + step.thought + texts[i].value, step.score, step.judge);
    TakeAppended(c, [t, UserTurn]);
    TakeAppended(idx, [i]);
  }

  /** The walk from message `i` moves past no final answer but the last
      message it moves past. */
  lemma {:induction false} WalkedStopsAtFinal(processDir: string, messages: seq<Message>, texts: seq<Result<string>>,
                                              steps: nat -> Step, i: nat, convo: seq<Turn>, shots: nat)
    requires i <= |messages| == |texts| && |convo| > 0
    ensures var s := Walked(processDir, messages, texts, steps, i, convo, shots).1;
            i <= s <= |messages| &&
            forall j :: i <= j < s && messages[j].FinalAnswerMessage? ==> j == s - 1
    decreases |messages| - i
  {
    if i < |messages| {
      if messages[i].OtherMessage? {
        WalkedStopsAtFinal(processDir, messages, texts, steps, i + 1, convo, shots);
      } else {
        var v := VisitOf(convo, shots, texts[i], steps(shots), processDir);
        if v.GoOn? && !messages[i].FinalAnswerMessage? {
          WalkedStopsAtFinal(processDir, messages, texts, steps, i + 1, v.convo, shots + 1);
        }
      }
    }
  }

  /** How a walk that moved past `s` messages ends, with `k` the number of
      messages annotated before message `s`: an error is that of message
      `s`'s action text (`texts[s]`) or of its step (`steps(k)`); the
      trajectory is abandoned exactly by that step; and a returned
      conversation comes with the
      screenshot paths of the annotated messages, the walk having reached
      the end of the log or a final answer, or with one more path when the
      step of message `s` hit the content filter at the judge. */
  predicate Ending(processDir: string, messages: seq<Message>, texts: seq<Result<string>>,
                   steps: nat -> Step, r: Result<EvalResult>, s: nat)
    requires s <= |messages| == |texts|
  {
    var k := |Eligible(messages, s)|;
    if r.Err? then
      s < |messages| && !messages[s].OtherMessage? &&
      (texts[s] == Err(r.error) ||
       (texts[s].Ok? && steps(k) == Raise(r.error)))
    else if r.value.Abandoned? then
      s < |messages| && !messages[s].OtherMessage? &&
      texts[s].Ok? && steps(k) == Abandon
    else if r.value.Annotated? then
      (r.value.images == ShotPaths(processDir, k) &&
       (s == |messages| || (0 < s && messages[s - 1].FinalAnswerMessage?))) ||
      (r.value.images == ShotPaths(processDir, k + 1) && s < |messages| && !messages[s].OtherMessage? &&
       texts[s].Ok? && steps(k) == KeepSoFar)
    else false
  }

  /** A walk that goes past message `i`, other than a final answer, goes on
      from message `i + 1` with the conversation the visit left. */
  lemma WalkedGoesOn(processDir: string, messages: seq<Message>, texts: seq<Result<string>>,
                     steps: nat -> Step, i: nat, convo: seq<Turn>, convo': seq<Turn>)
    requires i < |messages| == |texts| && !messages[i].FinalAnswerMessage? && |convo| > 0
    requires messages[i].OtherMessage? ==> convo' == convo
    requires var k := |Eligible(messages, i)|;
             !messages[i].OtherMessage? ==>
               VisitOf(convo, k, texts[i], steps(k), processDir).GoOn? &&
               convo' == VisitOf(convo, k, texts[i], steps(k), processDir).convo
    ensures |convo'| > 0
    ensures Walked(processDir, messages, texts, steps, i, convo, |Eligible(messages, i)|) ==
            Walked(processDir, messages, texts, steps, i + 1, convo', |Eligible(messages, i + 1)|)
  {
    EligibleStep(messages, i);
  }

  /** A walk that ends at message `i` ends as `Ending` says. */
  lemma EndingAt(processDir: string, messages: seq<Message>, texts: seq<Result<string>>,
                 steps: nat -> Step, i: nat, convo: seq<Turn>, r: Result<EvalResult>, s: nat)
    requires i <= |messages| == |texts| && |convo| > 0
    requires (r, s) == Walked(processDir, messages, texts, steps, i, convo, |Eligible(messages, i)|)
    requires var k := |Eligible(messages, i)|;
             i == |messages| ||
             (!messages[i].OtherMessage? &&
              (VisitOf(convo, k, texts[i], steps(k), processDir).Stop? || messages[i].FinalAnswerMessage?))
    ensures s <= |messages| && Ending(processDir, messages, texts, steps, r, s)
  {
    if i < |messages| {
      EligibleStep(messages, i);
    }
  }

  /** The walk from message `i`, with the messages before it annotated as
      `Eligible` says, ends as `Ending` says. */
  lemma {:induction false} WalkedEnding(processDir: string, messages: seq<Message>, texts: seq<Result<string>>,
                                        steps: nat -> Step, i: nat, convo: seq<Turn>, r: Result<EvalResult>, s: nat)
    requires i <= |messages| == |texts| && |convo| > 0
    requires (r, s) == Walked(processDir, messages, texts, steps, i, convo, |Eligible(messages, i)|)
    ensures s <= |messages| && Ending(processDir, messages, texts, steps, r, s)
    decreases |messages| - i
  {
    var k := |Eligible(messages, i)|;
    if i == |messages| ||
       (!messages[i].OtherMessage? &&
        (VisitOf(convo, k, texts[i], steps(k), processDir).Stop? || messages[i].FinalAnswerMessage?)) {
      EndingAt(processDir, messages, texts, steps, i, convo, r, s);
    } else {
      var convo' :=
        if messages[i].OtherMessage? then convo else VisitOf(convo, k, texts[i], steps(k), processDir).convo;
      WalkedGoesOn(processDir, messages, texts, steps, i, convo, convo');
      WalkedEnding(processDir, messages, texts, steps, i + 1, convo', r, s);
    }
  }

  /** A walk that stops at message `i` returns the finished transcript, when
      it returns a conversation. */
  lemma TranscriptStops(processDir: string, messages: seq<Message>, texts: seq<Result<string>>,
                        steps: nat -> Step, start: Turn, i: nat, convo: seq<Turn>, r: Result<EvalResult>, s: nat)
    requires i <= |messages| == |texts|
    requires Transcript(convo, start, texts, Eligible(messages, i), steps)
    requires (r, s) == Walked(processDir, messages, texts, steps, i, convo, |Eligible(messages, i)|)
    requires var k := |Eligible(messages, i)|;
             i == |messages| ||
             (!messages[i].OtherMessage? && VisitOf(convo, k, texts[i], steps(k), processDir).Stop?)
    ensures s <= |messages| && Returned(r, start, texts, Eligible(messages, s), steps)
  {
    TranscriptReturned(convo, start, texts, Eligible(messages, i), steps, r);
  }

  /** A walk that annotates a final answer returns the finished transcript
      with that answer's entry last. */
  lemma TranscriptFinal(c: seq<Turn>, start: Turn, texts: seq<Result<string>>, idx: seq<nat>, idx': seq<nat>,
                        i: nat, steps: nat -> Step, processDir: string, r: Result<EvalResult>)
    requires i < |texts| && idx' == idx + [i]
    requires Transcript(c, start, texts, idx, steps)
    requires VisitOf(c, |idx|, texts[i], steps(|idx|), processDir).GoOn?
    requires var c' := VisitOf(c, |idx|, texts[i], steps(|idx|), processDir).convo;
             r.Ok? && r.value.Annotated? ==> r.value.conversations == c'[..|c'| - 1]
    ensures Returned(r, start, texts, idx', steps)
  {
    TranscriptStep(c, start, texts, idx, idx', i, steps, processDir);
    TranscriptReturned(VisitOf(c, |idx|, texts[i], steps(|idx|), processDir).convo, start, texts, idx', steps, r);
  }

  /** Going past message `i` extends the transcript by message `i`'s entry
      when it was annotated. */
  lemma TranscriptGoesOn(processDir: string, messages: seq<Message>, texts: seq<Result<string>>,
                         steps: nat -> Step, start: Turn, i: nat, convo: seq<Turn>, convo': seq<Turn>)
    requires i < |messages| == |texts| && !messages[i].FinalAnswerMessage?
    requires Transcript(convo, start, texts, Eligible(messages, i), steps)
    requires messages[i].OtherMessage? ==> convo' == convo
    requires var k := |Eligible(messages, i)|;
             !messages[i].OtherMessage? ==>
               VisitOf(convo, k, texts[i], steps(k), processDir).GoOn? &&
               convo' == VisitOf(convo, k, texts[i], steps(k), processDir).convo
    ensures Transcript(convo', start, texts, Eligible(messages, i + 1), steps)
  {
    EligibleStep(messages, i);
    if !messages[i].OtherMessage? {
      TranscriptStep(convo, start, texts, Eligible(messages, i), Eligible(messages, i + 1), i, steps, processDir);
    }
  }

  /** The conversation returned by the walk from message `i`, with the
      transcript of the messages before it built, holds the annotations of
      the messages it moved past, entry by entry. */
  lemma {:induction false} WalkedTranscript(processDir: string, messages: seq<Message>, texts: seq<Result<string>>,
                                            steps: nat -> Step, start: Turn, i: nat, convo: seq<Turn>,
                                            r: Result<EvalResult>, s: nat)
    requires i <= |messages| == |texts|
    requires Transcript(convo, start, texts, Eligible(messages, i), steps)
    requires (r, s) == Walked(processDir, messages, texts, steps, i, convo, |Eligible(messages, i)|)
    ensures s <= |messages| && Returned(r, start, texts, Eligible(messages, s), steps)
    decreases |messages| - i
  {
    var k := |Eligible(messages, i)|;
    if i == |messages| ||
       (!messages[i].OtherMessage? && VisitOf(convo, k, texts[i], steps(k), processDir).Stop?) {
      TranscriptStops(processDir, messages, texts, steps, start, i, convo, r, s);
    } else if messages[i].FinalAnswerMessage? {
      EligibleStep(messages, i);
      TranscriptFinal(convo, start, texts, Eligible(messages, i), Eligible(messages, i + 1), i, steps, processDir, r);
    } else {
      var convo' :=
        if messages[i].OtherMessage? then convo else VisitOf(convo, k, texts[i], steps(k), processDir).convo;
      TranscriptGoesOn(processDir, messages, texts, steps, start, i, convo, convo');
      WalkedGoesOn(processDir, messages, texts, steps, i, convo, convo');
      WalkedTranscript(processDir, messages, texts, steps, start, i + 1, convo', r, s);
    }
  }

  /** The walk from the start message moves past no final answer but the
      last message it moves past, ends as `Ending` says, and returns, when it
      returns a conversation, the finished transcript of the annotated
      messages. */
  lemma WalkFromStart(processDir: string, messages: seq<Message>, texts: seq<Result<string>>,
                      steps: nat -> Step, start: Turn, r: Result<EvalResult>, s: nat)
    requires |texts| == |messages|
    requires (r, s) == Walked(processDir, messages, texts, steps, 0, [start], 0)
    ensures s <= |messages| && forall j :: 0 <= j < s && messages[j].FinalAnswerMessage? ==> j == s - 1
    ensures Ending(processDir, messages, texts, steps, r, s)
    ensures Returned(r, start, texts, Eligible(messages, s), steps)
  {
    WalkedStopsAtFinal(processDir, messages, texts, steps, 0, [start], 0);
    WalkedEnding(processDir, messages, texts, steps, 0, [start], r, s);
    WalkedTranscript(processDir, messages, texts, steps, start, 0, [start], r, s);
  }

  /** The loop of `auto_eval_by_gpt` over the logged messages, from the start
      message on; `texts` and `steps` name the action texts and the steps the
      loop comes across. */
  method WalkMessages(start: Turn, processDir: string, messages: seq<Message>,
                      thoughts: nat -> nat -> Outcome, judges: nat -> nat -> Outcome,
                      ghost texts: seq<Result<string>>, ghost steps: nat -> Step)
    returns (r: Result<EvalResult>, scanned: nat)
    requires start.StartTurn?
    requires TextsOf(texts, messages) && StepsOf(steps, thoughts, judges)
    ensures WalkResult(r, scanned, messages, processDir)
    ensures (r, scanned) == Walked(processDir, messages, texts, steps, 0, [start], 0)
  {
    scanned := 0;
    var w := Walk([start], [], [], [], []);
    ghost var walked := Walked(processDir, messages, texts, steps, 0, [start], 0);
    while scanned < |messages|
      invariant scanned <= |messages|
      invariant Valid(w, processDir) && w.previousActions == Eligible(messages, scanned)
      invariant NoFinalBefore(messages, scanned)
      invariant walked == Walked(processDir, messages, texts, steps, scanned, w.convo, |w.images|)
    {
      var next, stop := Scan(w, messages, scanned, processDir, thoughts, judges, texts, steps);
      if stop.Some? {
        StopWalk(stop.value, w, scanned, messages, processDir);
        return stop.value, scanned;
      }
      w := next;
      scanned := scanned + 1;
      if messages[scanned - 1].FinalAnswerMessage? {
        FinishWalk(w, scanned, messages, processDir);
        return Ok(Annotated(w.convo[..|w.convo| - 1], w.images)), scanned;
      }
    }
    FinishWalk(w, scanned, messages, processDir);
    return Ok(Annotated(w.convo[..|w.convo| - 1], w.images)), scanned;
  }

  /** `auto_eval_by_gpt`: annotates each logged action and the first final
      answer with a thought and a judged score. */
  method AutoEvalByGpt(fileExists: bool, firstContent: Value, processDir: string, messages: seq<Message>,
                       thoughts: nat -> nat -> Outcome, judges: nat -> nat -> Outcome)
    returns (r: Result<EvalResult>, scanned: nat)
    ensures !fileExists ==> r == Ok(NoInteractFile)
    ensures fileExists && StartMessage(firstContent).Err? ==> r == Err(StartMessage(firstContent).error)
    ensures fileExists && StartMessage(firstContent).Ok? ==> WalkResult(r, scanned, messages, processDir)
    ensures fileExists && StartMessage(firstContent).Ok? ==>
              (r, scanned) == Walked(processDir, messages, ActionTexts(messages), Steps(thoughts, judges), 0,
                                     [StartMessage(firstContent).value], 0)
  {
    if !fileExists {
      return Ok(NoInteractFile), 0;
    }
    var start := StartMessage(firstContent);
    if start.Err? {
      return Err(start.error), 0;
    }
    r, scanned := WalkMessages(start.value, processDir, messages, thoughts, judges,
                               ActionTexts(messages), Steps(thoughts, judges));
  }
}

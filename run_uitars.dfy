/** The UI-TARS agent: a chat-completion call retried on rate limits and API
    errors, the Playwright executors of the parsed actions (page events), the
    user messages of each iteration, and the agent loop with its failure
    observations. */
module RunUiTars {
  import opened Common
  import opened Json
  import opened Browser
  import RunOperator
  import MapAction

  // ---------------------------------------------------------------------------
  // The model call with retries (call_gpt4v_api)

  /** What one chat-completion request ends in. */
  datatype ApiOutcome =
    | Success(promptTokens: int, completionTokens: int, content: string)
    | RateLimitError
    | APIError
    | InvalidRequestError
    | OtherError

  /** The two error kinds that are retried, after a pause. */
  predicate Retryable(o: ApiOutcome) {
    o.RateLimitError? || o.APIError?
  }

  /** The pause before retrying: 10 s after a rate limit, 15 s after an API error. */
  function Backoff(o: ApiOutcome): int {
    if o.RateLimitError? then 10000 else 15000
  }

  const MaxApiCalls := 10

  /** The call's result: token counts, the error flag and the reply text. */
  datatype ApiResult = ApiResult(promptTokens: Option<int>, completionTokens: Option<int>,
                                 error: bool, content: Option<string>)

  const Failed := ApiResult(None, None, true, None)

  /** The call as a function of the outcomes: the result and the number of
      requests made, counting from the (done+1)-th request. */
  function ApiRunFrom(outcome: nat -> ApiOutcome, first: nat, done: nat): (r: (ApiResult, nat))
    requires done < MaxApiCalls
    ensures done < r.1 <= MaxApiCalls
    decreases MaxApiCalls - done
  {
    var o := outcome(first + done);
    if o.Success? then (ApiResult(Some(o.promptTokens), Some(o.completionTokens), false, Some(o.content)), done + 1)
    else if !Retryable(o) || done + 1 == MaxApiCalls then (Failed, done + 1)
    else ApiRunFrom(outcome, first, done + 1)
  }

  /** The result of a call whose first request is `outcome(first)`, and how
      many requests it makes. */
  function ApiRun(outcome: nat -> ApiOutcome, first: nat): (r: (ApiResult, nat))
    ensures 1 <= r.1 <= MaxApiCalls
  {
    ApiRunFrom(outcome, first, 0)
  }

  /** Calls the model until it answers, a non-retryable error occurs, or the
      tenth retryable error; `outcome(first + i)` is the (i+1)-th request's
      outcome. Returns the result, how many requests were made and the pauses
      taken. */
  method CallApi(outcome: nat -> ApiOutcome, first: nat) returns (r: ApiResult, calls: nat, pauses: seq<int>)
    ensures 1 <= calls <= MaxApiCalls
    ensures forall j :: first <= j < first + calls - 1 ==> Retryable(outcome(j))
    ensures !r.error <==> outcome(first + calls - 1).Success?
    ensures !r.error ==> r.content == Some(outcome(first + calls - 1).content) &&
                         r.promptTokens == Some(outcome(first + calls - 1).promptTokens) &&
                         r.completionTokens == Some(outcome(first + calls - 1).completionTokens)
    ensures r.error ==> r == Failed
    ensures calls < MaxApiCalls ==> !Retryable(outcome(first + calls - 1))
    ensures |pauses| == (if Retryable(outcome(first + calls - 1)) then calls else calls - 1)
    ensures forall i :: 0 <= i < |pauses| ==> pauses[i] == Backoff(outcome(first + i))
    ensures (r, calls) == ApiRun(outcome, first)
  {
    calls, pauses := 0, [];
    while calls < MaxApiCalls
      invariant 0 <= calls <= MaxApiCalls
      invariant |pauses| == calls
      invariant calls < MaxApiCalls ==> ApiRunFrom(outcome, first, calls) == ApiRun(outcome, first)
      invariant calls == MaxApiCalls ==> ApiRun(outcome, first) == (Failed, MaxApiCalls)
      invariant forall j :: first <= j < first + calls ==> Retryable(outcome(j))
      invariant forall i :: 0 <= i < calls ==> pauses[i] == Backoff(outcome(first + i))
    {
      var o := outcome(first + calls);
      calls := calls + 1;
      if o.Success? {
        return ApiResult(Some(o.promptTokens), Some(o.completionTokens), false, Some(o.content)), calls, pauses;
      }
      if !Retryable(o) {
        return Failed, calls, pauses;
      }
      pauses := pauses + [Backoff(o)];
    }
    r := Failed;
  }

  // ---------------------------------------------------------------------------
  // Hotkeys (perform_hotkey)

  /** The keys of a hotkey string: stripped, lower-cased, split on whitespace,
      each replaced by its table entry when it has one. */
  function HotkeyKeys(table: map<string, string>, keyStr: string): seq<string> {
    var words := Words(Lower(Strip(keyStr)));
    seq(|words|, i requires 0 <= i < |words| => if words[i] in table then table[words[i]] else words[i])
  }

  /** For a key string written as words separated by single spaces, the
      keys pressed are those words in order, each lower-cased and replaced
      by its table entry when it has one. */
  lemma HotkeyKeysOfWords(table: map<string, string>, ws: seq<string>)
    requires forall i :: 0 <= i < |ws| ==> IsWord(ws[i])
    ensures var keys := HotkeyKeys(table, Join(" ", ws));
            |keys| == |ws| &&
            forall i :: 0 <= i < |ws| ==>
              keys[i] == if Lower(ws[i]) in table then table[Lower(ws[i])] else Lower(ws[i])
  {
    var t := Join(" ", ws);
    var lower := MapAction.LowerAll(ws);
    JoinOfWordsIsStripped(ws);
    MapAction.LowerJoin(ws);
    forall i | 0 <= i < |lower| ensures IsWord(lower[i]) {
      LowerWord(ws[i]);
    }
    WordsOfJoin(lower);
    assert Words(Lower(Strip(t))) == lower;
  }

  lemma LowerWord(w: string)
    requires IsWord(w)
    ensures IsWord(Lower(w))
  {
    forall k | 0 <= k < |w| ensures NotSpace(Lower(w)[k]) {
      assert NotSpace(w[k]);
    }
  }

  const KeyPause := 1000

  /** Every event followed by a one-second pause. */
  function Paced(events: seq<Event>): (r: seq<Event>)
    ensures |r| == 2 * |events|
  {
    if events == [] then [] else [events[0], Sleep(KeyPause)] + Paced(events[1..])
  }

  lemma {:induction false} PacedConcat(a: seq<Event>, b: seq<Event>)
    ensures Paced(a + b) == Paced(a) + Paced(b)
    decreases |a|
  {
    if a == [] {
      assert a + b == b;
    } else {
      assert (a + b)[0] == a[0] && (a + b)[1..] == a[1..] + b;
      PacedConcat(a[1..], b);
    }
  }

  /** The pauses between key events do not change which keys are held. */
  lemma {:induction false} PacedHeld(held: seq<string>, events: seq<Event>)
    ensures Held(held, Paced(events)) == Held(held, events)
    decreases |events|
  {
    if events != [] {
      var p := Paced(events);
      assert p[2..] == Paced(events[1..]);
      match events[0]
      case KeyDown(k) =>
        PacedHeld(held + [k], events[1..]);
        assert Held(held + [k], p[1..]) == Held(held + [k], p[2..]);
      case KeyUp(k) =>
        if held != [] && held[|held| - 1] == k {
          PacedHeld(held[..|held| - 1], events[1..]);
          assert Held(held[..|held| - 1], p[1..]) == Held(held[..|held| - 1], p[2..]);
        }
      case _ =>
        PacedHeld(held, events[1..]);
        assert Held(held, p[1..]) == Held(held, p[2..]);
    }
  }

  /** The events of a hotkey: the operator's chord, with a pause after each key event. */
  function HotkeyEvents(keys: seq<string>): seq<Event> {
    Paced(RunOperator.ChordEvents(keys))
  }

  /** A hotkey holds all its keys at once and releases them last-in first-out. */
  lemma HotkeyIsNested(keys: seq<string>)
    ensures Held([], Paced(RunOperator.Downs(keys))) == Some(keys)
    ensures Held([], HotkeyEvents(keys)) == Some([])
    ensures HotkeyEvents(keys) == Paced(RunOperator.Downs(keys)) + Paced(RunOperator.Ups(RunOperator.Reverse(keys)))
  {
    RunOperator.ChordIsNested(keys);
    PacedHeld([], RunOperator.Downs(keys));
    PacedHeld([], RunOperator.ChordEvents(keys));
    PacedConcat(RunOperator.Downs(keys), RunOperator.Ups(RunOperator.Reverse(keys)));
  }

  /** Presses the keys of `keyStr` in order, then releases them in reverse. */
  method PerformHotkey(page: Page, table: map<string, string>, keyStr: string)
    modifies page
    ensures page.log == old(page.log) + HotkeyEvents(HotkeyKeys(table, keyStr))
  {
    var keys := HotkeyKeys(table, keyStr);
    PressChord(page, keys);
  }

  method PressChord(page: Page, keys: seq<string>)
    modifies page
    ensures page.log == old(page.log) + HotkeyEvents(keys)
  {
    HotkeyIsNested(keys);
    PressInOrder(page, keys);
    ReleaseInReverse(page, keys);
  }

  method PressInOrder(page: Page, keys: seq<string>)
    modifies page
    ensures page.log == old(page.log) + Paced(RunOperator.Downs(keys))
  {
    var i := 0;
    while i < |keys|
      invariant 0 <= i <= |keys|
      invariant page.log == old(page.log) + Paced(RunOperator.Downs(keys[..i]))
    {
      page.Emit(KeyDown(keys[i]));
      page.Emit(Sleep(KeyPause));
      PressedOneMore(keys, i);
      i := i + 1;
    }
    assert keys[..i] == keys;
  }

  lemma PressedOneMore(keys: seq<string>, i: nat)
    requires i < |keys|
    ensures Paced(RunOperator.Downs(keys[..i + 1])) == Paced(RunOperator.Downs(keys[..i])) + [KeyDown(keys[i]), Sleep(KeyPause)]
  {
    assert keys[..i + 1] == keys[..i] + [keys[i]];
    RunOperator.DownsSnoc(keys[..i], keys[i]);
    PacedConcat(RunOperator.Downs(keys[..i]), [KeyDown(keys[i])]);
  }

  method ReleaseInReverse(page: Page, keys: seq<string>)
    modifies page
    ensures page.log == old(page.log) + Paced(RunOperator.Ups(RunOperator.Reverse(keys)))
  {
    var reversed := RunOperator.Reverse(keys);
    var j := 0;
    while j < |reversed|
      invariant 0 <= j <= |reversed|
      invariant page.log == old(page.log) + Paced(RunOperator.Ups(reversed[..j]))
    {
      page.Emit(KeyUp(reversed[j]));
      page.Emit(Sleep(KeyPause));
      ReleasedOneMore(reversed, j);
      j := j + 1;
    }
    assert reversed[..j] == reversed;
  }

  lemma ReleasedOneMore(keys: seq<string>, i: nat)
    requires i < |keys|
    ensures Paced(RunOperator.Ups(keys[..i + 1])) == Paced(RunOperator.Ups(keys[..i])) + [KeyUp(keys[i]), Sleep(KeyPause)]
  {
    assert keys[..i + 1] == keys[..i] + [keys[i]];
    RunOperator.UpsSnoc(keys[..i], keys[i]);
    PacedConcat(RunOperator.Ups(keys[..i]), [KeyUp(keys[i])]);
  }

  // ---------------------------------------------------------------------------
  // The executors of parsed actions

  /** The screenshot files a trace writes, in order. */
  function Shots(events: seq<Event>): seq<string> {
    if events == [] then []
    else (if events[0].Screenshot? then [events[0].path] else []) + Shots(events[1..])
  }

  lemma {:induction false} ShotsConcat(a: seq<Event>, b: seq<Event>)
    ensures Shots(a + b) == Shots(a) + Shots(b)
    decreases |a|
  {
    if a == [] {
      assert a + b == b;
    } else {
      assert (a + b)[0] == a[0] && (a + b)[1..] == a[1..] + b;
      ShotsConcat(a[1..], b);
    }
  }

  /** An action as the action parser hands it over: its type and its inputs. */
  datatype ParsedAction = ParsedAction(kind: string, inputs: Dict)

  /** The pause of the executors, and the one after every action. */
  const ExecPause := 3000

  /** The scroll distance: a third of the window height (floor division),
      downwards for "down" and upwards for any other direction. */
  function ScrollDistance(windowHeight: int, direction: Option<Value>): (d: int)
    ensures d == windowHeight / 3 || d == -(windowHeight / 3)
    ensures windowHeight >= 3 ==> (d > 0 <==> direction == Some(Str("down")))
    ensures windowHeight >= 3 ==> (d < 0 <==> direction != Some(Str("down")))
  {
    var dist := windowHeight * 1 / 3;
    if direction == Some(Str("down")) then dist else -dist
  }

  /** `ast.literal_eval(inputs[key])`, with `evalBox` standing for
      literal_eval on a string; a missing key is a KeyError and a value that
      is not a string is refused. */
  function BoxArg(inputs: Dict, key: string, default: Option<string>, evalBox: string -> Result<seq<real>>): Result<seq<real>> {
    match Get(inputs, key)
    case Some(Str(s)) => evalBox(s)
    case Some(_) => Err(ValueError)
    case None => if default.Some? then evalBox(default.value) else Err(KeyError(key))
  }

  /** `box[i] * 1000`. */
  function Coord(box: seq<real>, i: nat): Result<real> {
    if i < |box| then Ok(box[i] * 1000.0) else Err(IndexError)
  }

  /** The page events of one parsed action: None for "finished" (which ends
      the action list), no events for an unknown type, an error when an input
      is missing or malformed (before any event). */
  function ActionEvents(table: map<string, string>, windowHeight: int, evalBox: string -> Result<seq<real>>,
                        a: ParsedAction): Result<Option<seq<Event>>>
  {
    if a.kind in ["click", "left_double", "right_single"] then ClickAction(a.inputs, evalBox)
    else if a.kind == "type" then TypeAction(a.inputs, evalBox)
    else if a.kind == "hotkey" then HotkeyAction(table, a.inputs)
    else if a.kind == "scroll" then ScrollAction(windowHeight, a.inputs, evalBox)
    else if a.kind == "drag" then DragAction(a.inputs, evalBox)
    else if a.kind == "finished" then Ok(None)
    else Ok(Some([]))
  }

  // Each executor below takes no screenshot.

  function ClickAction(inputs: Dict, evalBox: string -> Result<seq<real>>): (r: Result<Option<seq<Event>>>)
    ensures r.Ok? ==> r.value.Some? && Shots(r.value.value) == []
  {
    var box :- BoxArg(inputs, "start_box", None, evalBox);
    var x :- Coord(box, 0);
    var y :- Coord(box, 1);
    var e := [SetTargetSelf(x, y), MouseClick(x, y, LeftButton), Sleep(ExecPause)];
    ShotsNone(e);
    Ok(Some(e))
  }

  function TypeAction(inputs: Dict, evalBox: string -> Result<seq<real>>): (r: Result<Option<seq<Event>>>)
    ensures r.Ok? ==> r.value.Some? && Shots(r.value.value) == []
  {
    var box :- BoxArg(inputs, "start_box", Some("(0,0)"), evalBox);
    var _ :- Coord(box, 0);
    var _ :- Coord(box, 1);
    var content :- Subscript(Obj(inputs), "content");
    if content.Str? then
      var e := [TypeText(content.s), KeyPress("Enter"), Sleep(ExecPause)];
      ShotsNone(e);
      Ok(Some(e))
    else Err(TypeError)
  }

  function HotkeyAction(table: map<string, string>, inputs: Dict): (r: Result<Option<seq<Event>>>)
    ensures r.Ok? ==> r.value.Some? && Shots(r.value.value) == []
  {
    var key :- Subscript(Obj(inputs), "key");
    if key.Str? then
      var keys := HotkeyKeys(table, key.s);
      HotkeyTakesNoScreenshot(keys);
      Ok(Some(HotkeyEvents(keys)))
    else Err(AttributeError("strip"))
  }

  lemma HotkeyTakesNoScreenshot(keys: seq<string>)
    ensures Shots(HotkeyEvents(keys)) == []
  {
    var downs, ups := RunOperator.Downs(keys), RunOperator.Ups(RunOperator.Reverse(keys));
    ShotsNone(downs);
    ShotsNone(ups);
    ShotsConcat(downs, ups);
    PacedShots(downs + ups);
  }

  function ScrollAction(windowHeight: int, inputs: Dict, evalBox: string -> Result<seq<real>>): (r: Result<Option<seq<Event>>>)
    ensures r.Ok? ==> r.value.Some? && Shots(r.value.value) == []
  {
    var box :- BoxArg(inputs, "start_box", None, evalBox);
    var x :- Coord(box, 0);
    var y :- Coord(box, 1);
    var e := [MouseMove(x, y), ScrollBy(0, ScrollDistance(windowHeight, Get(inputs, "direction"))), Sleep(ExecPause)];
    ShotsNone(e);
    Ok(Some(e))
  }

  function DragAction(inputs: Dict, evalBox: string -> Result<seq<real>>): (r: Result<Option<seq<Event>>>)
    ensures r.Ok? ==> r.value.Some? && Shots(r.value.value) == []
  {
    var box :- BoxArg(inputs, "start_box", None, evalBox);
    var x1 :- Coord(box, 0);
    var y1 :- Coord(box, 1);
    var x2 :- Coord(box, 2);
    var y2 :- Coord(box, 3);
    var e := [MouseMove(x1, y1), MouseDown, MouseMove(x2, y2), MouseUp, Sleep(ExecPause)];
    ShotsNone(e);
    Ok(Some(e))
  }

  /** The three click types are executed alike, as one left click at the
      start box scaled by 1000, after retargeting the element there. */
  lemma ClickKindsAgree(table: map<string, string>, windowHeight: int, evalBox: string -> Result<seq<real>>,
                        inputs: Dict, box: seq<real>)
    requires Get(inputs, "start_box").Some? && Get(inputs, "start_box").value.Str?
    requires evalBox(Get(inputs, "start_box").value.s) == Ok(box) && |box| >= 2
    ensures forall kind :: kind in ["click", "left_double", "right_single"] ==>
              ActionEvents(table, windowHeight, evalBox, ParsedAction(kind, inputs)) ==
              Ok(Some([SetTargetSelf(box[0] * 1000.0, box[1] * 1000.0),
                       MouseClick(box[0] * 1000.0, box[1] * 1000.0, LeftButton), Sleep(ExecPause)]))
  {
  }

  /** A drag presses at the first corner of its box and releases at the
      second: the pointer visits both, with the button down only at the second. */
  lemma DragStroke(table: map<string, string>, windowHeight: int, evalBox: string -> Result<seq<real>>,
                   a: ParsedAction)
    requires a.kind == "drag"
    requires ActionEvents(table, windowHeight, evalBox, a).Ok?
    ensures var box := BoxArg(a.inputs, "start_box", None, evalBox).value;
            |box| >= 4 &&
            ActionEvents(table, windowHeight, evalBox, a).value.Some? &&
            Strokes(false, ActionEvents(table, windowHeight, evalBox, a).value.value) ==
              ([(box[0] * 1000.0, box[1] * 1000.0, false), (box[2] * 1000.0, box[3] * 1000.0, true)], false)
  {
    var box := BoxArg(a.inputs, "start_box", None, evalBox).value;
    assert a.kind !in ["click", "left_double", "right_single"];
    assert Coord(box, 3).Ok?;
    var p1, p2 := (box[0] * 1000.0, box[1] * 1000.0), (box[2] * 1000.0, box[3] * 1000.0);
    assert ActionEvents(table, windowHeight, evalBox, a)
        == Ok(Some([MouseMove(p1.0, p1.1), MouseDown, MouseMove(p2.0, p2.1), MouseUp, Sleep(ExecPause)]));
    PressMoveRelease(p1.0, p1.1, p2.0, p2.1);
  }

  /** Press at one point, move to another, release: the pointer is up at the
      first point and down at the second. */
  lemma PressMoveRelease(x1: real, y1: real, x2: real, y2: real)
    ensures Strokes(false, [MouseMove(x1, y1), MouseDown, MouseMove(x2, y2), MouseUp, Sleep(ExecPause)])
         == ([(x1, y1, false), (x2, y2, true)], false)
  {
    var e := [MouseMove(x1, y1), MouseDown, MouseMove(x2, y2), MouseUp, Sleep(ExecPause)];
    var t4: seq<Event> := [Sleep(ExecPause)];
    var t3 := [MouseUp] + t4;
    var t2 := [MouseMove(x2, y2)] + t3;
    var t1 := [MouseDown] + t2;
    assert e == [MouseMove(x1, y1)] + t1;
    assert t4[1..] == [] && t3[1..] == t4 && t2[1..] == t3 && t1[1..] == t2 && e[1..] == t1;
    assert Strokes(false, t4) == ([], false);
    assert Strokes(true, t3) == ([], false);
    assert [(x2, y2, true)] + [] == [(x2, y2, true)];
    assert Strokes(true, t2) == ([(x2, y2, true)], false);
    assert Strokes(false, t1) == ([(x2, y2, true)], false);
    assert Strokes(false, e) == ([(x1, y1, false)] + [(x2, y2, true)], false);
    assert [(x1, y1, false)] + [(x2, y2, true)] == [(x1, y1, false), (x2, y2, true)];
  }

  /** The events an action's effect puts on the page. */
  function Emitted(effect: Result<Option<seq<Event>>>): seq<Event> {
    if effect.Ok? && effect.value.Some? then effect.value.value else []
  }

  /** Executes one parsed action and returns its effect. */
  method ExecAction(page: Page, table: map<string, string>, windowHeight: int, evalBox: string -> Result<seq<real>>,
                    a: ParsedAction) returns (effect: Result<Option<seq<Event>>>)
    modifies page
    ensures effect == ActionEvents(table, windowHeight, evalBox, a)
    ensures page.log == old(page.log) + Emitted(effect)
  {
    effect := ActionEvents(table, windowHeight, evalBox, a);
    if effect.Err? || effect.value.None? {
      return;
    }
    if a.kind == "hotkey" {
      var key := Subscript(Obj(a.inputs), "key").value;
      assert effect == Ok(Some(HotkeyEvents(HotkeyKeys(table, key.s))));
      PerformHotkey(page, table, key.s);
    } else {
      EmitAll(page, effect.value.value);
    }
  }

  /** Performs the events of an executor in order. */
  method EmitAll(page: Page, events: seq<Event>)
    modifies page
    ensures page.log == old(page.log) + events
  {
    var i := 0;
    while i < |events|
      invariant 0 <= i <= |events|
      invariant page.log == old(page.log) + events[..i]
    {
      page.Emit(events[i]);
      assert events[..i + 1] == events[..i] + [events[i]];
      i := i + 1;
    }
    assert events[..i] == events;
  }

  /** The observation after an action that raised. */
  const ExecFailObs := "The action cannot be executed. Please revise."

  /** The failure observation an iteration leaves for the next one: none, a
      reply without "Action:", actions that do not parse, or an action that
      raised. */
  datatype Failure = NoFailure | MissingAction | BadFormat | ExecFailed

  /** The text of a failure observation; "" is none. */
  function FailureText(f: Failure): string {
    match f
    case NoFailure => ""
    case MissingAction => MissingActionObs
    case BadFormat => BadFormatObs
    case ExecFailed => ExecFailObs
  }

  /** What each parsed action of a reply does, in order. */
  function Effects(table: map<string, string>, windowHeight: int, evalBox: string -> Result<seq<real>>,
                   actions: seq<ParsedAction>): (r: seq<Result<Option<seq<Event>>>>)
    ensures |r| == |actions|
    ensures forall i :: 0 <= i < |actions| ==> r[i] == ActionEvents(table, windowHeight, evalBox, actions[i])
  {
    seq(|actions|, i requires 0 <= i < |actions| => ActionEvents(table, windowHeight, evalBox, actions[i]))
  }

  /** The actions of one reply, executed in order from their effects: each
      clears the failure observation, an action that raises sets it,
      "finished" stops the list. A pause follows every action except
      "finished". Returns the final failure observation and the events. */
  function ExecTrace(effects: seq<Result<Option<seq<Event>>>>, fail: Failure): (Failure, seq<Event>)
    decreases |effects|
  {
    if effects == [] then (fail, [])
    else
      match effects[0]
      case Err(_) =>
        var rest := ExecTrace(effects[1..], ExecFailed);
        (rest.0, [Sleep(ExecPause)] + rest.1)
      case Ok(None) => (NoFailure, [])
      case Ok(Some(events)) =>
        var rest := ExecTrace(effects[1..], NoFailure);
        (rest.0, events + [Sleep(ExecPause)] + rest.1)
  }

  /** Some action of the list is "finished". */
  predicate Stops(effects: seq<Result<Option<seq<Event>>>>) {
    exists i :: 0 <= i < |effects| && effects[i] == Ok(None)
  }

  /** The failure observation an action list leaves: the one before it when
      the list is empty; cleared when some action is "finished"; otherwise
      decided by the last action alone, which leaves "cannot be executed"
      exactly when it raised. */
  lemma {:induction false} ExecTraceFailure(effects: seq<Result<Option<seq<Event>>>>, fail: Failure)
    ensures ExecTrace(effects, fail).0 ==
            if effects == [] then fail
            else if Stops(effects) then NoFailure
            else if effects[|effects| - 1].Err? then ExecFailed
            else NoFailure
    decreases |effects|
  {
    if effects != [] {
      var tail := effects[1..];
      assert forall i :: 0 <= i < |tail| ==> tail[i] == effects[i + 1];
      if effects[0] != Ok(None) {
        var f := if effects[0].Err? then ExecFailed else NoFailure;
        ExecTraceFailure(tail, f);
        if Stops(effects) {
          var i :| 0 <= i < |effects| && effects[i] == Ok(None);
          assert tail[i - 1] == Ok(None);
        }
        if Stops(tail) {
          var i :| 0 <= i < |tail| && tail[i] == Ok(None);
          assert effects[i + 1] == Ok(None);
        }
      }
    }
  }

  lemma {:induction false} ShotsNone(events: seq<Event>)
    requires forall i :: 0 <= i < |events| ==> !events[i].Screenshot?
    ensures Shots(events) == []
    decreases |events|
  {
    if events != [] {
      assert forall i :: 0 <= i < |events[1..]| ==> events[1..][i] == events[i + 1];
      ShotsNone(events[1..]);
    }
  }

  lemma {:induction false} PacedShots(events: seq<Event>)
    ensures Shots(Paced(events)) == Shots(events)
    decreases |events|
  {
    if events != [] {
      var p := Paced(events);
      assert p == [events[0]] + ([Sleep(KeyPause)] + Paced(events[1..]));
      ShotsConcat([events[0]], [Sleep(KeyPause)] + Paced(events[1..]));
      ShotsConcat([Sleep(KeyPause)], Paced(events[1..]));
      assert [events[0]] + events[1..] == events;
      ShotsConcat([events[0]], events[1..]);
      PacedShots(events[1..]);
    }
  }

  /** No executor of a parsed action takes a screenshot. */
  lemma ActionTakesNoScreenshot(table: map<string, string>, windowHeight: int, evalBox: string -> Result<seq<real>>,
                                a: ParsedAction)
    ensures Shots(Emitted(ActionEvents(table, windowHeight, evalBox, a))) == []
  {
    var e := Emitted(ActionEvents(table, windowHeight, evalBox, a));
    if e != [] {
      assert ActionEvents(table, windowHeight, evalBox, a).Ok?;
    } else {
      assert Shots(e) == [];
    }
  }

  /** No action of the UI-TARS executors takes a screenshot. */
  lemma {:induction false} ExecTraceTakesNoScreenshot(table: map<string, string>, windowHeight: int,
                                                      evalBox: string -> Result<seq<real>>,
                                                      actions: seq<ParsedAction>, fail: Failure)
    ensures Shots(ExecTrace(Effects(table, windowHeight, evalBox, actions), fail).1) == []
  {
    var effects := Effects(table, windowHeight, evalBox, actions);
    forall i | 0 <= i < |effects|
      ensures Shots(Emitted(effects[i])) == []
    {
      ActionTakesNoScreenshot(table, windowHeight, evalBox, actions[i]);
    }
    NoShotsInTrace(effects, fail);
  }

  lemma {:induction false} NoShotsInTrace(effects: seq<Result<Option<seq<Event>>>>, fail: Failure)
    requires forall i :: 0 <= i < |effects| ==> Shots(Emitted(effects[i])) == []
    ensures Shots(ExecTrace(effects, fail).1) == []
    decreases |effects|
  {
    if effects != [] {
      var tail := effects[1..];
      assert forall i :: 0 <= i < |tail| ==> tail[i] == effects[i + 1];
      match effects[0]
      case Err(_) =>
        NoShotsInTrace(tail, ExecFailed);
        ShotsConcat([Sleep(ExecPause)], ExecTrace(tail, ExecFailed).1);
      case Ok(None) =>
      case Ok(Some(events)) =>
        NoShotsInTrace(tail, NoFailure);
        ShotsConcat(events, [Sleep(ExecPause)]);
        ShotsConcat(events + [Sleep(ExecPause)], ExecTrace(tail, NoFailure).1);
    }
  }

  /** Executes one action of a reply and the pause after it; `stop` for "finished". */
  method ExecOne(page: Page, table: map<string, string>, windowHeight: int, evalBox: string -> Result<seq<real>>,
                 a: ParsedAction) returns (effect: Result<Option<seq<Event>>>, stop: bool, fail: Failure)
    modifies page
    ensures effect == ActionEvents(table, windowHeight, evalBox, a)
    ensures stop <==> effect == Ok(None)
    ensures stop ==> fail == NoFailure && page.log == old(page.log)
    ensures !stop ==> fail == (if effect.Err? then ExecFailed else NoFailure) &&
                      page.log == old(page.log) + Emitted(effect) + [Sleep(ExecPause)]
  {
    effect := ExecAction(page, table, windowHeight, evalBox, a);
    if effect == Ok(None) {
      return effect, true, NoFailure;
    }
    fail := if effect.Err? then ExecFailed else NoFailure;
    page.Emit(Sleep(ExecPause));
    stop := false;
  }

  /** One step of the trace of an action list. */
  lemma ExecTraceStep(effects: seq<Result<Option<seq<Event>>>>, i: nat, fail: Failure, f: Failure)
    requires i < |effects|
    ensures effects[i] == Ok(None) ==> ExecTrace(effects[i..], fail) == (NoFailure, [])
    ensures effects[i] != Ok(None) && f == (if effects[i].Err? then ExecFailed else NoFailure) ==>
              ExecTrace(effects[i..], fail) ==
              (ExecTrace(effects[i + 1..], f).0, Emitted(effects[i]) + [Sleep(ExecPause)] + ExecTrace(effects[i + 1..], f).1)
  {
    assert effects[i..][0] == effects[i] && effects[i..][1..] == effects[i + 1..];
    if effects[i].Err? {
      var rest := ExecTrace(effects[i + 1..], ExecFailed).1;
      assert Emitted(effects[i]) + [Sleep(ExecPause)] + rest == [Sleep(ExecPause)] + rest;
    }
  }

  /** Executes the parsed actions of one reply. */
  method ExecActions(page: Page, table: map<string, string>, windowHeight: int, evalBox: string -> Result<seq<real>>,
                     actions: seq<ParsedAction>, fail0: Failure) returns (fail: Failure)
    modifies page
    ensures fail == ExecTrace(Effects(table, windowHeight, evalBox, actions), fail0).0
    ensures page.log == old(page.log) + ExecTrace(Effects(table, windowHeight, evalBox, actions), fail0).1
  {
    ghost var effects := Effects(table, windowHeight, evalBox, actions);
    fail := fail0;
    var i := 0;
    assert effects[0..] == effects;
    while i < |actions|
      invariant 0 <= i <= |actions|
      invariant ExecTrace(effects, fail0).0 == ExecTrace(effects[i..], fail).0
      invariant old(page.log) + ExecTrace(effects, fail0).1 == page.log + ExecTrace(effects[i..], fail).1
      decreases |actions| - i
    {
      var stop;
      fail, stop := ExecStep(page, table, windowHeight, evalBox, actions[i], effects, i, fail);
      if stop {
        return;
      }
      i := i + 1;
    }
    assert effects[i..] == [];
    assert page.log + [] == page.log;
  }

  /** One action of the loop above, with its place in the trace of the rest. */
  method ExecStep(page: Page, table: map<string, string>, windowHeight: int, evalBox: string -> Result<seq<real>>,
                  a: ParsedAction, ghost effects: seq<Result<Option<seq<Event>>>>, i: nat, fail0: Failure)
    returns (fail: Failure, stop: bool)
    requires i < |effects| && effects[i] == ActionEvents(table, windowHeight, evalBox, a)
    modifies page
    ensures stop ==> fail == ExecTrace(effects[i..], fail0).0 && page.log == old(page.log) &&
                     ExecTrace(effects[i..], fail0).1 == []
    ensures !stop ==> ExecTrace(effects[i..], fail0).0 == ExecTrace(effects[i + 1..], fail).0 &&
                      old(page.log) + ExecTrace(effects[i..], fail0).1 == page.log + ExecTrace(effects[i + 1..], fail).1
  {
    var effect;
    effect, stop, fail := ExecOne(page, table, windowHeight, evalBox, a);
    TraceAdvance(effects, i, effect, stop, fail0, fail, old(page.log), page.log);
  }

  /** How one executed action advances the trace of the rest. */
  lemma TraceAdvance(effects: seq<Result<Option<seq<Event>>>>, i: nat, effect: Result<Option<seq<Event>>>, stop: bool,
                     fail0: Failure, fail: Failure, log0: seq<Event>, log: seq<Event>)
    requires i < |effects| && effects[i] == effect
    requires stop <==> effect == Ok(None)
    requires stop ==> fail == NoFailure && log == log0
    requires !stop ==> fail == (if effect.Err? then ExecFailed else NoFailure) && log == log0 + Emitted(effect) + [Sleep(ExecPause)]
    ensures stop ==> fail == ExecTrace(effects[i..], fail0).0 && log == log0 && ExecTrace(effects[i..], fail0).1 == []
    ensures !stop ==> ExecTrace(effects[i..], fail0).0 == ExecTrace(effects[i + 1..], fail).0 &&
                      log0 + ExecTrace(effects[i..], fail0).1 == log + ExecTrace(effects[i + 1..], fail).1
  {
    ExecTraceStep(effects, i, fail0, fail);
    if !stop {
      var rest := ExecTrace(effects[i + 1..], fail).1;
      var done := Emitted(effect) + [Sleep(ExecPause)];
      assert ExecTrace(effects[i..], fail0).1 == done + rest;
      assert log0 + (done + rest) == (log0 + done) + rest;
    }
  }


  // ---------------------------------------------------------------------------
  // The user messages of each iteration (format_msg, format_msg_text_only)

  const ProceedText := "Please proceed with your Thought and Action."
  const ScreenshotRequest := " please analyze the attached screenshot and give the Thought and Action. "
  const ResponseReview := " Please analyze the response given by Assistant, then consider whether to continue iterating or not."
  const ScreenshotAttached := " The screenshot of the current page is also attached, give the Thought and Action. "
  // The two tree requests end with a newline, which is written separately.
  const TreeRequest := " please analyze the accessibility tree and give the Thought and Action."
  const TreeGiven := " The accessibility tree of the current page is also given, give the Thought and Action."

  function TextBlock(text: string): Value {
    Obj([("type", Str("text")), ("text", Str(text))])
  }

  /** An attached screenshot; its base64 data stands as the screenshot's path. */
  function ImageBlock(image: string): Value {
    Obj([("type", Str("image_url")), ("image_url", Obj([("url", Str("data:image/png;base64," + image))]))])
  }

  function UserMessage(content: Value): Value {
    Obj([("role", Str("user")), ("content", content)])
  }

  /** A failure observation sent as the iteration's message. */
  function FailureMessage(f: Failure): Value {
    UserMessage(Str(FailureText(f)))
  }

  function AssistantMessage(text: string): Value {
    Obj([("role", Str("assistant")), ("content", Str(text))])
  }

  /** The text of an iteration's message: the task and the request to
      proceed on the first iteration; afterwards the observation, which
      reports the assistant's response when there is one. */
  function ObservationText(it: int, initMsg: string, pdfObs: string, warnObs: string): (t: string)
    ensures it == 1 ==> StartsWith(t, initMsg)
    ensures it != 1 ==> StartsWith(t, "Observation:")
    ensures it != 1 && pdfObs != "" ==> Contains(t, pdfObs)
  {
    if it == 1 then
      assert (initMsg + ProceedText)[..|initMsg|] == initMsg;
      initMsg + ProceedText
    else if pdfObs == "" then
      assert ("Observation:" + warnObs + ScreenshotRequest)[..12] == "Observation:";
      "Observation:" + warnObs + ScreenshotRequest
    else
      var t := "Observation: " + pdfObs + ResponseReview + ScreenshotAttached;
      assert t[..12] == "Observation:";
      assert t[13..13 + |pdfObs|] == pdfObs;
      ContainsAt(t, pdfObs, 13);
      t
  }

  /** An iteration's message with the screenshot: whichever text is chosen,
      one text block followed by one image block. */
  function FormatMsg(it: int, initMsg: string, pdfObs: string, warnObs: string, image: string): (m: Value)
    ensures m == UserMessage(List([TextBlock(ObservationText(it, initMsg, pdfObs, warnObs)), ImageBlock(image)]))
  {
    if it == 1 then
      var text := initMsg + ProceedText;
      var format := [("role", Str("user")), ("content", List([TextBlock(text)]))];
      assert format[1].1.items + [ImageBlock(image)] == [TextBlock(text), ImageBlock(image)];
      Obj([format[0], ("content", List(format[1].1.items + [ImageBlock(image)]))])
    else if pdfObs == "" then
      UserMessage(List([TextBlock("Observation:" + warnObs + ScreenshotRequest), ImageBlock(image)]))
    else
      UserMessage(List([TextBlock("Observation: " + pdfObs + ResponseReview + ScreenshotAttached), ImageBlock(image)]))
  }

  /** An iteration's message for the text-only agent: plain text that always
      ends with the accessibility tree. */
  function FormatMsgTextOnly(it: int, initMsg: string, pdfObs: string, warnObs: string, tree: string): (m: Value)
    ensures m.Obj? && |m.fields| == 2 && m.fields[0] == ("role", Str("user")) && m.fields[1].0 == "content"
    ensures m.fields[1].1.Str? && EndsWith(m.fields[1].1.s, "\n" + tree)
    ensures it == 1 ==> m == UserMessage(Str(initMsg + "\n" + tree))
  {
    var head :=
      if it == 1 then initMsg
      else if pdfObs == "" then "Observation:" + warnObs + TreeRequest
      else "Observation: " + pdfObs + ResponseReview + TreeGiven;
    EndsWithAppend(head, "\n" + tree);
    assert head + "\n" + tree == head + ("\n" + tree);
    UserMessage(Str(head + "\n" + tree))
  }

  // ---------------------------------------------------------------------------
  // The agent loop (run_task)

  const ExampleSite := "https://www.example.com"
  const TaskIntro := "Now given a task: "
  const TaskSite := "  Please interact with "
  const TaskEnding := " and get the answer. \n"
  const ObsPrompt := "Observation:" + ScreenshotRequest
  const ObsPromptTextOnly := "Observation: please analyze the accessibility tree and give the Thought and Action."

  /** What a reply must contain to carry an action, and to end the task. */
  const ActionMarker := "Action:"
  const FinishMarker := "Action: finished"

  const MissingActionObs := "Format ERROR: 'Action' must be included in your reply."
  const BadFormatObs := "Format ERROR: The Action format is not correct, please follow the format: Action: <action_type>(<action_inputs>)"


  /** The task statement: the example address in the template is replaced by
      the site, everywhere in the text (the question included), then the
      observation prompt is appended. */
  function InitMsg(question: string, web: string, textOnly: bool): string {
    ReplaceAll(TaskIntro + question + TaskSite + ExampleSite + TaskEnding, ExampleSite, web)
    + (if textOnly then ObsPromptTextOnly else ObsPrompt)
  }

  /** The run's settings. */
  datatype Config = Config(maxIter: int, maxAttachedImgs: int, textOnly: bool, windowHeight: int, windowWidth: int)

  /** Everything outside the loop: the model's outcomes (`outcome(n)` for
      the n-th request of the run), the action parser, Python's
      `ast.literal_eval` on a box, the two message clippers, the
      accessibility tree at each iteration, the key table and the system
      prompts. */
  datatype Env = Env(
    outcome: nat -> ApiOutcome,
    parse: (string, int, int) -> Result<seq<ParsedAction>>,
    evalBox: string -> Result<seq<real>>,
    clip: (seq<Value>, int) -> seq<Value>,
    clipTextOnly: (seq<Value>, int) -> seq<Value>,
    tree: nat -> string,
    keyTable: map<string, string>,
    systemPrompt: string,
    systemPromptTextOnly: string)

  /** The message of iteration `it` when no failure is pending. */
  function Fresh(env: Env, cfg: Config, initMsg: string, it: nat): Value {
    if cfg.textOnly then FormatMsgTextOnly(it, initMsg, "", "", env.tree(it))
    else FormatMsg(it, initMsg, "", "", RunOperator.ShotPath(it))
  }

  /** The fresh message of every iteration. */
  function FreshMessages(env: Env, cfg: Config, initMsg: string): nat -> Value {
    (it: nat) => Fresh(env, cfg, initMsg, it)
  }

  /** After the first iteration the fresh message is just the observation
      prompt that ends the task statement. */
  lemma LaterMessagesRepeatPrompt(env: Env, cfg: Config, initMsg: string, it: nat)
    requires it != 1 && !cfg.textOnly
    ensures Fresh(env, cfg, initMsg, it) ==
            UserMessage(List([TextBlock(ObsPrompt), ImageBlock(RunOperator.ShotPath(it))]))
  {
    assert "Observation:" + "" == "Observation:";
    assert "Observation:" + ScreenshotRequest == ObsPrompt;
  }

  datatype TaskEnd = Finished | Exhausted | Crashed(error: Error)

  /** The conversation clipped to the image budget by the clipper of the
      agent's mode. */
  function Clip(env: Env, cfg: Config, messages: seq<Value>): seq<Value> {
    if cfg.textOnly then env.clipTextOnly(messages, cfg.maxAttachedImgs)
    else env.clip(messages, cfg.maxAttachedImgs)
  }

  /** The conversation once an iteration's message has joined it: a fresh
      message is clipped in and the whole is clipped again; a failure
      message is appended and clipped once. */
  function Joined(env: Env, cfg: Config, messages: seq<Value>, observation: Value, isFresh: bool): seq<Value> {
    if isFresh then Clip(env, cfg, Clip(env, cfg, messages + [observation]))
    else Clip(env, cfg, messages + [observation])
  }

  /** What a reply does when `fail0` is the failure observation pending
      before it: the failure observation it leaves, and its page events. */
  function ReplyOutcome(env: Env, cfg: Config, reply: string, fail0: Failure): (Failure, seq<Event>) {
    if !Contains(reply, ActionMarker) then (MissingAction, [])
    else if Contains(reply, FinishMarker) then (fail0, [])
    else
      match env.parse(reply, cfg.windowHeight, cfg.windowWidth)
      case Err(_) => (BadFormat, [])
      case Ok(actions) => ExecTrace(Effects(env.keyTable, cfg.windowHeight, env.evalBox, actions), fail0)
  }

  /** The failure observation a reply leaves: a format error without
      "Action:", a format error when its actions do not parse, and
      otherwise "cannot be executed" exactly when the last action run
      raised (no action being "finished"), the pending one kept when there
      is no action at all. Its actions take no screenshot. */
  lemma ReplyFailure(env: Env, cfg: Config, reply: string, fail0: Failure)
    ensures var f := ReplyOutcome(env, cfg, reply, fail0).0;
            var parsed := env.parse(reply, cfg.windowHeight, cfg.windowWidth);
            && (!Contains(reply, ActionMarker) ==> f == MissingAction)
            && (Contains(reply, ActionMarker) && !Contains(reply, FinishMarker) && parsed.Err? ==> f == BadFormat)
            && (Contains(reply, ActionMarker) && !Contains(reply, FinishMarker) && parsed.Ok? ==>
                  var effects := Effects(env.keyTable, cfg.windowHeight, env.evalBox, parsed.value);
                  f == if effects == [] then fail0
                       else if Stops(effects) then NoFailure
                       else if effects[|effects| - 1].Err? then ExecFailed
                       else NoFailure)
    ensures Shots(ReplyOutcome(env, cfg, reply, fail0).1) == []
  {
    var parsed := env.parse(reply, cfg.windowHeight, cfg.windowWidth);
    if Contains(reply, ActionMarker) && !Contains(reply, FinishMarker) && parsed.Ok? {
      ExecTraceFailure(Effects(env.keyTable, cfg.windowHeight, env.evalBox, parsed.value), fail0);
      ExecTraceTakesNoScreenshot(env.keyTable, cfg.windowHeight, env.evalBox, parsed.value, fail0);
    }
  }

  /** One iteration: screenshot `it`, the user message (the pending failure
      observation, or a fresh message) joining the clipped conversation,
      the model call, then the checks on the reply and the execution of its
      actions. `end` is set when the loop stops: on "Action: finished", or
      with a TypeError when the model call failed (the missing response is
      subscripted). */
  method Iteration(page: Page, env: Env, cfg: Config, next: nat -> Value, it: nat,
                   messages0: seq<Value>, fail0: Failure, calls0: nat)
    returns (messages: seq<Value>, observation: Value, reply: Option<string>, fail: Failure, calls: nat,
             end: Option<TaskEnd>)
    modifies page
    ensures observation == if fail0 == NoFailure then next(it) else FailureMessage(fail0)
    ensures reply == ApiRun(env.outcome, calls0).0.content && calls == calls0 + ApiRun(env.outcome, calls0).1
    ensures var joined := Joined(env, cfg, messages0, observation, fail0 == NoFailure);
            messages == if reply.Some? then joined + [AssistantMessage(reply.value)] else joined
    ensures reply.None? ==> end == Some(Crashed(TypeError)) && fail == fail0 &&
                            page.log == old(page.log) + [Screenshot(RunOperator.ShotPath(it))]
    ensures reply.Some? ==> fail == ReplyOutcome(env, cfg, reply.value, fail0).0 &&
                            page.log == old(page.log) + [Screenshot(RunOperator.ShotPath(it))]
                                        + ReplyOutcome(env, cfg, reply.value, fail0).1
    ensures end == Some(Finished) <==> reply.Some? && Contains(reply.value, FinishMarker)
    ensures reply.Some? && !Contains(reply.value, FinishMarker) ==> end.None?
    ensures Shots(page.log) == Shots(old(page.log)) + [RunOperator.ShotPath(it)]
  {
    var shown;
    shown, observation := Observe(page, env, cfg, next, it, messages0, fail0);
    messages, reply, fail, calls, end := Respond(page, env, cfg, shown, fail0, calls0);
  }

  /** The first half of an iteration: the screenshot, then the observation
      (or the pending failure message) added to the clipped conversation. */
  method Observe(page: Page, env: Env, cfg: Config, next: nat -> Value, it: nat,
                 messages0: seq<Value>, fail0: Failure)
    returns (messages: seq<Value>, observation: Value)
    modifies page
    ensures observation == if fail0 == NoFailure then next(it) else FailureMessage(fail0)
    ensures messages == Joined(env, cfg, messages0, observation, fail0 == NoFailure)
    ensures page.log == old(page.log) + [Screenshot(RunOperator.ShotPath(it))]
    ensures Shots(page.log) == Shots(old(page.log)) + [RunOperator.ShotPath(it)]
  {
    var shot := RunOperator.ShotPath(it);
    ShotsConcat(page.log, [Screenshot(shot)]);
    page.Emit(Screenshot(shot));
    if fail0 == NoFailure {
      observation := next(it);
      messages := if cfg.textOnly then env.clipTextOnly(messages0 + [observation], cfg.maxAttachedImgs)
                  else env.clip(messages0 + [observation], cfg.maxAttachedImgs);
    } else {
      observation := FailureMessage(fail0);
      messages := messages0 + [observation];
    }
    messages := if cfg.textOnly then env.clipTextOnly(messages, cfg.maxAttachedImgs)
                else env.clip(messages, cfg.maxAttachedImgs);
  }

  /** The second half of an iteration: ask the model, record its reply, and
      either stop, set the failure observation, or run the parsed actions. */
  method Respond(page: Page, env: Env, cfg: Config, messages0: seq<Value>, fail0: Failure, calls0: nat)
    returns (messages: seq<Value>, reply: Option<string>, fail: Failure, calls: nat, end: Option<TaskEnd>)
    modifies page
    ensures reply == ApiRun(env.outcome, calls0).0.content && calls == calls0 + ApiRun(env.outcome, calls0).1
    ensures messages == if reply.Some? then messages0 + [AssistantMessage(reply.value)] else messages0
    ensures reply.None? ==> end == Some(Crashed(TypeError)) && fail == fail0 && page.log == old(page.log)
    ensures reply.Some? ==> fail == ReplyOutcome(env, cfg, reply.value, fail0).0 &&
                            page.log == old(page.log) + ReplyOutcome(env, cfg, reply.value, fail0).1
    ensures end == Some(Finished) <==> reply.Some? && Contains(reply.value, FinishMarker)
    ensures reply.Some? && !Contains(reply.value, FinishMarker) ==> end.None?
    ensures Shots(page.log) == Shots(old(page.log))
  {
    var r, n, pauses := CallApi(env.outcome, calls0);
    calls := calls0 + n;
    fail := fail0;
    messages := messages0;
    if r.content.None? {
      return messages, None, fail, calls, Some(Crashed(TypeError));
    }
    var text := r.content.value;
    reply := Some(text);
    messages := messages + [AssistantMessage(text)];
    end := None;
    assert ActionMarker + " finished" == FinishMarker;
    if !Contains(text, ActionMarker) {
      if Contains(text, FinishMarker) {
        ContainsPrefixOf(text, ActionMarker, " finished");
      }
      fail := MissingAction;
      return;
    }
    if Contains(text, FinishMarker) {
      end := Some(Finished);
      return;
    }
    var parsed := env.parse(text, cfg.windowHeight, cfg.windowWidth);
    if parsed.Err? {
      fail := BadFormat;
      return;
    }
    fail := ExecReply(page, env.keyTable, cfg.windowHeight, env.evalBox, parsed.value, fail0);
  }

  /** Runs the actions of one well-formed reply; they take no screenshot. */
  method ExecReply(page: Page, table: map<string, string>, windowHeight: int, evalBox: string -> Result<seq<real>>,
                   actions: seq<ParsedAction>, fail0: Failure) returns (fail: Failure)
    modifies page
    ensures fail == ExecTrace(Effects(table, windowHeight, evalBox, actions), fail0).0
    ensures page.log == old(page.log) + ExecTrace(Effects(table, windowHeight, evalBox, actions), fail0).1
    ensures Shots(page.log) == Shots(old(page.log))
  {
    ExecTraceTakesNoScreenshot(table, windowHeight, evalBox, actions, fail0);
    fail := ExecActions(page, table, windowHeight, evalBox, actions, fail0);
    ShotsConcat(old(page.log), ExecTrace(Effects(table, windowHeight, evalBox, actions), fail0).1);
  }

  /** The screenshots of the first `n` iterations: "screenshot1.png" onwards. */
  function ShotPaths(n: nat): (r: seq<string>)
    ensures |r| == n
  {
    if n == 0 then [] else ShotPaths(n - 1) + [RunOperator.ShotPath(n)]
  }

  /** The i-th screenshot of a run is "screenshot<i + 1>.png". */
  lemma {:induction false} ShotPathsAt(n: nat, i: nat)
    requires i < n
    ensures ShotPaths(n)[i] == RunOperator.ShotPath(i + 1)
    decreases n
  {
    if i < n - 1 {
      ShotPathsAt(n - 1, i);
    }
  }

  // ---------------------------------------------------------------------------
  // A run, as a function of the model's replies

  /** The failure observation pending before iteration i + 1: none before
      the first, the one the previous iteration left afterwards. */
  function Pending(failures: seq<Failure>, i: nat): Failure
    requires i <= |failures|
  {
    if i == 0 then NoFailure else failures[i - 1]
  }

  /** The message iteration i + 1 sends: fresh unless a failure is pending. */
  function ObservationAt(next: nat -> Value, failures: seq<Failure>, i: nat): Value
    requires i <= |failures|
  {
    if Pending(failures, i) == NoFailure then next(i + 1) else FailureMessage(Pending(failures, i))
  }

  /** The messages of the first n iterations. */
  function Observations(next: nat -> Value, failures: seq<Failure>, n: nat): seq<Value>
    requires n <= |failures| + 1
  {
    seq(n, i requires 0 <= i < n => ObservationAt(next, failures, i))
  }

  /** The request at which the model call of iteration k + 1 starts: each
      call starts where the previous one stopped. */
  function CallStart(outcome: nat -> ApiOutcome, k: nat): nat {
    if k == 0 then 0 else CallStart(outcome, k - 1) + ApiRun(outcome, CallStart(outcome, k - 1)).1
  }

  /** The reply to the model call of iteration k + 1; None when it failed. */
  function ReplyAt(outcome: nat -> ApiOutcome, k: nat): Option<string> {
    ApiRun(outcome, CallStart(outcome, k)).0.content
  }

  /** `replies` are the model's answers to its first |replies| calls, in turn. */
  predicate Answered(outcome: nat -> ApiOutcome, replies: seq<string>)
    decreases |replies|
  {
    replies == [] ||
    (Answered(outcome, replies[..|replies| - 1]) && ReplyAt(outcome, |replies| - 1) == Some(replies[|replies| - 1]))
  }

  /** The failure observation each reply leaves, given the one pending
      before it. */
  function Failures(env: Env, cfg: Config, replies: seq<string>): (fs: seq<Failure>)
    ensures |fs| == |replies|
    decreases |replies|
  {
    if replies == [] then []
    else
      var fs := Failures(env, cfg, replies[..|replies| - 1]);
      fs + [ReplyOutcome(env, cfg, replies[|replies| - 1], Pending(fs, |fs|)).0]
  }

  /** The page events of the iterations that got `replies`: each one's
      screenshot, then what its reply does. */
  function Events(env: Env, cfg: Config, replies: seq<string>): seq<Event>
    decreases |replies|
  {
    if replies == [] then []
    else
      var prefix := replies[..|replies| - 1];
      var fs := Failures(env, cfg, prefix);
      Events(env, cfg, prefix) + [Screenshot(RunOperator.ShotPath(|replies|))]
      + ReplyOutcome(env, cfg, replies[|replies| - 1], Pending(fs, |fs|)).1
  }

  /** The conversation after the iterations that got `replies`: the system
      message, then each iteration's message joining the clipped
      conversation, and its reply. */
  function Conversation(env: Env, cfg: Config, next: nat -> Value, system: Value, replies: seq<string>): seq<Value>
    decreases |replies|, 0
  {
    if replies == [] then [system]
    else Asked(env, cfg, next, system, replies[..|replies| - 1]) + [AssistantMessage(replies[|replies| - 1])]
  }

  /** The conversation sent on the model call that follows the iterations
      that got `replies`. */
  function Asked(env: Env, cfg: Config, next: nat -> Value, system: Value, replies: seq<string>): seq<Value>
    decreases |replies|, 1
  {
    var fs := Failures(env, cfg, replies);
    Joined(env, cfg, Conversation(env, cfg, next, system, replies), ObservationAt(next, fs, |fs|),
           Pending(fs, |fs|) == NoFailure)
  }

  /** One more reply extends the failures, the events and the conversation. */
  lemma Extend(env: Env, cfg: Config, next: nat -> Value, system: Value, replies: seq<string>, r: string)
    ensures var fs := Failures(env, cfg, replies);
            var after := ReplyOutcome(env, cfg, r, Pending(fs, |fs|));
            && Failures(env, cfg, replies + [r]) == fs + [after.0]
            && Events(env, cfg, replies + [r])
               == Events(env, cfg, replies) + [Screenshot(RunOperator.ShotPath(|replies| + 1))] + after.1
            && Conversation(env, cfg, next, system, replies + [r])
               == Asked(env, cfg, next, system, replies) + [AssistantMessage(r)]
  {
    assert (replies + [r])[..|replies|] == replies;
  }

  /** The message of the next iteration extends the messages sent so far,
      and they do not change when the failure it leaves is recorded. */
  lemma ObservationsNext(next: nat -> Value, failures: seq<Failure>, f: Failure)
    ensures var n := |failures|;
            && Observations(next, failures, n + 1) == Observations(next, failures, n) + [ObservationAt(next, failures, n)]
            && Observations(next, failures + [f], n + 1) == Observations(next, failures, n + 1)
  {
    var n := |failures|;
    assert Observations(next, failures, n + 1) == Observations(next, failures, n) + [ObservationAt(next, failures, n)];
    forall i | 0 <= i <= n
      ensures ObservationAt(next, failures + [f], i) == ObservationAt(next, failures, i)
    {
      assert Pending(failures + [f], i) == Pending(failures, i);
    }
  }

  /** The replies are the model's answers in turn exactly when each reply i
      is the answer to call i + 1. */
  lemma {:induction false} AnsweredIff(outcome: nat -> ApiOutcome, replies: seq<string>)
    ensures Answered(outcome, replies) <==>
            forall i :: 0 <= i < |replies| ==> ReplyAt(outcome, i) == Some(replies[i])
    decreases |replies|
  {
    if replies != [] {
      var prefix := replies[..|replies| - 1];
      AnsweredIff(outcome, prefix);
      assert forall i :: 0 <= i < |prefix| ==> prefix[i] == replies[i];
    }
  }

  /** The failure after reply i is the one that reply leaves, given the
      failure pending before it. */
  lemma {:induction false} FailuresAt(env: Env, cfg: Config, replies: seq<string>, i: nat)
    requires i < |replies|
    ensures var fs := Failures(env, cfg, replies);
            fs[i] == ReplyOutcome(env, cfg, replies[i], Pending(fs, i)).0
    decreases |replies|
  {
    var prefix := replies[..|replies| - 1];
    var fs0 := Failures(env, cfg, prefix);
    var fs := Failures(env, cfg, replies);
    assert fs[..|prefix|] == fs0;
    if i < |prefix| {
      FailuresAt(env, cfg, prefix, i);
      assert Pending(fs, i) == Pending(fs0, i);
    } else {
      assert Pending(fs, i) == Pending(fs0, i);
    }
  }

  /** Across a run, the failure observation after reply i is the format
      error when the reply lacks "Action:", the other format error when its
      actions do not parse, and otherwise "cannot be executed" exactly when
      the last action run raised. */
  lemma RunFailures(env: Env, cfg: Config, replies: seq<string>, i: nat)
    requires i < |replies|
    ensures var fs := Failures(env, cfg, replies);
            var r := replies[i];
            var parsed := env.parse(r, cfg.windowHeight, cfg.windowWidth);
            && (!Contains(r, ActionMarker) ==> fs[i] == MissingAction)
            && (Contains(r, ActionMarker) && !Contains(r, FinishMarker) && parsed.Err? ==> fs[i] == BadFormat)
            && (Contains(r, ActionMarker) && !Contains(r, FinishMarker) && parsed.Ok? ==>
                  var effects := Effects(env.keyTable, cfg.windowHeight, env.evalBox, parsed.value);
                  fs[i] == if effects == [] then Pending(fs, i)
                           else if Stops(effects) then NoFailure
                           else if effects[|effects| - 1].Err? then ExecFailed
                           else NoFailure)
  {
    var fs := Failures(env, cfg, replies);
    FailuresAt(env, cfg, replies, i);
    ReplyFailure(env, cfg, replies[i], Pending(fs, i));
  }

  /** The page events of a run hold exactly one screenshot per iteration,
      "screenshot1.png" first, in order. */
  lemma {:induction false} EventsShots(env: Env, cfg: Config, replies: seq<string>)
    ensures Shots(Events(env, cfg, replies)) == ShotPaths(|replies|)
    decreases |replies|
  {
    if replies != [] {
      var prefix := replies[..|replies| - 1];
      var fs := Failures(env, cfg, prefix);
      var rest := ReplyOutcome(env, cfg, replies[|replies| - 1], Pending(fs, |fs|)).1;
      EventsShots(env, cfg, prefix);
      ReplyFailure(env, cfg, replies[|replies| - 1], Pending(fs, |fs|));
      ShotsConcat(Events(env, cfg, prefix) + [Screenshot(RunOperator.ShotPath(|replies|))], rest);
      ShotsConcat(Events(env, cfg, prefix), [Screenshot(RunOperator.ShotPath(|replies|))]);
    }
  }

  /** The screenshots of a run's page events, after those of `base`: one per
      iteration, including the last one when its model call failed. */
  lemma LogShots(env: Env, cfg: Config, base: seq<Event>, replies: seq<string>, crashed: bool)
    ensures var n := if crashed then |replies| + 1 else |replies|;
            Shots(base + Events(env, cfg, replies) + if crashed then [Screenshot(RunOperator.ShotPath(n))] else [])
            == Shots(base) + ShotPaths(n)
  {
    var n := if crashed then |replies| + 1 else |replies|;
    var extra: seq<Event> := if crashed then [Screenshot(RunOperator.ShotPath(n))] else [];
    EventsShots(env, cfg, replies);
    ShotsConcat(base, Events(env, cfg, replies));
    ShotsConcat(base + Events(env, cfg, replies), extra);
    if crashed {
      assert Shots(extra) == [RunOperator.ShotPath(n)];
    }
  }

  lemma ConcatAssoc<T>(a: seq<T>, b: seq<T>, c: seq<T>, d: seq<T>)
    ensures a + b + c + d == a + (b + c + d)
  {
  }

  /** Each model call starts where the previous one stopped. */
  lemma CallStartNext(outcome: nat -> ApiOutcome, k: nat)
    ensures CallStart(outcome, k + 1) == CallStart(outcome, k) + ApiRun(outcome, CallStart(outcome, k)).1
  {
  }

  /** No reply so far ends the task. */
  predicate NoneFinished(replies: seq<string>)
    decreases |replies|
  {
    replies == [] ||
    (NoneFinished(replies[..|replies| - 1]) && !Contains(replies[|replies| - 1], FinishMarker))
  }

  /** No reply ends the task exactly when none contains "Action: finished". */
  lemma {:induction false} NoneFinishedIff(replies: seq<string>)
    ensures NoneFinished(replies) <==> forall i :: 0 <= i < |replies| ==> !Contains(replies[i], FinishMarker)
    decreases |replies|
  {
    if replies != [] {
      var prefix := replies[..|replies| - 1];
      NoneFinishedIff(prefix);
      assert forall i :: 0 <= i < |prefix| ==> prefix[i] == replies[i];
    }
  }

  /** One turn of the loop after the iterations that got `replies0`: the
      next iteration, and what it adds to the run. */
  method Turn(page: Page, env: Env, cfg: Config, next: nat -> Value, system: Value, ghost base: seq<Event>,
              messages0: seq<Value>, observations0: seq<Value>, replies0: seq<string>, failures0: seq<Failure>,
              fail0: Failure, calls0: nat)
    returns (messages: seq<Value>, observations: seq<Value>, replies: seq<string>, failures: seq<Failure>,
             fail: Failure, calls: nat, stop: Option<TaskEnd>)
    requires |observations0| == |replies0| && Answered(env.outcome, replies0)
    requires failures0 == Failures(env, cfg, replies0) && fail0 == Pending(failures0, |failures0|)
    requires observations0 == Observations(next, failures0, |observations0|)
    requires calls0 == CallStart(env.outcome, |observations0|)
    requires messages0 == Conversation(env, cfg, next, system, replies0)
    requires page.log == base + Events(env, cfg, replies0)
    modifies page
    ensures |observations| == |observations0| + 1
    ensures stop == Some(Crashed(TypeError)) <==> replies == replies0
    ensures stop.None? || stop == Some(Finished) || stop == Some(Crashed(TypeError))
    ensures stop != Some(Crashed(TypeError)) ==> |replies| == |replies0| + 1 && replies[..|replies0|] == replies0
    ensures stop == Some(Crashed(TypeError)) ==> ReplyAt(env.outcome, |replies0|).None?
    ensures Answered(env.outcome, replies) && failures == Failures(env, cfg, replies)
    ensures observations == Observations(next, failures, |observations|)
    ensures calls == CallStart(env.outcome, |observations|)
    ensures stop != Some(Crashed(TypeError)) ==>
              && fail == Pending(failures, |failures|)
              && messages == Conversation(env, cfg, next, system, replies)
              && page.log == base + Events(env, cfg, replies)
    ensures stop == Some(Crashed(TypeError)) ==>
              && messages == Asked(env, cfg, next, system, replies)
              && page.log == base + Events(env, cfg, replies) + [Screenshot(RunOperator.ShotPath(|observations|))]
    ensures stop == Some(Finished) <==> replies != replies0 && Contains(replies[|replies0|], FinishMarker)
  {
    var n := |observations0|;
    var obs, reply;
    messages, obs, reply, fail, calls, stop := Iteration(page, env, cfg, next, n + 1, messages0, fail0, calls0);
    CallStartNext(env.outcome, n);
    ObservationsNext(next, failures0, fail);
    observations := observations0 + [obs];
    replies, failures := replies0, failures0;
    if reply.None? {
      return;
    }
    Extend(env, cfg, next, system, replies0, reply.value);
    ConcatAssoc(base, Events(env, cfg, replies0), [Screenshot(RunOperator.ShotPath(n + 1))],
                ReplyOutcome(env, cfg, reply.value, fail0).1);
    replies := replies0 + [reply.value];
    failures := failures0 + [fail];
    assert replies[..n] == replies0;
  }

  /** The UI-TARS agent loop: at most `maxIter` iterations. The replies are
      the model's answers in turn, the failures those the replies leave,
      and the messages, the conversation, the page events and the requests
      made are those of the replies; a failed model call ends the loop with
      a TypeError after its iteration's screenshot and message, and the
      first reply containing "Action: finished" ends it. */
  method RunLoop(page: Page, env: Env, cfg: Config, next: nat -> Value, system: Value)
    returns (end: TaskEnd, messages: seq<Value>, observations: seq<Value>, replies: seq<string>,
             failures: seq<Failure>, calls: nat)
    modifies page
    ensures |observations| <= (if cfg.maxIter < 0 then 0 else cfg.maxIter)
    ensures end.Exhausted? ==> |observations| == (if cfg.maxIter < 0 then 0 else cfg.maxIter)
    ensures end.Crashed? <==> |observations| == |replies| + 1
    ensures !end.Crashed? ==> |observations| == |replies|
    ensures end.Crashed? ==> end.error == TypeError && ReplyAt(env.outcome, |replies|).None?
    ensures Answered(env.outcome, replies) && failures == Failures(env, cfg, replies)
    ensures observations == Observations(next, failures, |observations|)
    ensures calls == CallStart(env.outcome, |observations|)
    ensures messages == if end.Crashed? then Asked(env, cfg, next, system, replies)
                        else Conversation(env, cfg, next, system, replies)
    ensures page.log == old(page.log) + Events(env, cfg, replies)
                        + if end.Crashed? then [Screenshot(RunOperator.ShotPath(|observations|))] else []
    ensures end.Finished? ==> replies != [] && Contains(replies[|replies| - 1], FinishMarker)
    ensures end.Finished? ==> NoneFinished(replies[..|replies| - 1])
    ensures !end.Finished? ==> NoneFinished(replies)
    ensures Shots(page.log) == Shots(old(page.log)) + ShotPaths(|observations|)
  {
    messages := [system];
    observations, replies, failures, calls := [], [], [], 0;
    var fail := NoFailure;
    end := Exhausted;
    while |observations| < cfg.maxIter
      invariant |observations| == |replies|
      invariant Answered(env.outcome, replies) && failures == Failures(env, cfg, replies)
      invariant fail == Pending(failures, |failures|)
      invariant observations == Observations(next, failures, |observations|)
      invariant calls == CallStart(env.outcome, |observations|)
      invariant messages == Conversation(env, cfg, next, system, replies)
      invariant page.log == old(page.log) + Events(env, cfg, replies)
      invariant |observations| <= (if cfg.maxIter < 0 then 0 else cfg.maxIter)
      invariant NoneFinished(replies)
      decreases cfg.maxIter - |observations|
    {
      var stop;
      ghost var prev := replies;
      messages, observations, replies, failures, fail, calls, stop :=
        Turn(page, env, cfg, next, system, old(page.log), messages, observations, replies, failures, fail, calls);
      if stop.Some? {
        end := stop.value;
        LogShots(env, cfg, old(page.log), replies, end.Crashed?);
        return;
      }
    }
    LogShots(env, cfg, old(page.log), replies, false);
  }

  /** The pause after the opening navigation. */
  const OpeningPause := 5000

  /** The system message of the agent's mode. */
  function SystemMessage(env: Env, cfg: Config): Value {
    Obj([("role", Str("system")), ("content", Str(if cfg.textOnly then env.systemPromptTextOnly else env.systemPrompt))])
  }

  /** The UI-TARS agent: the site is opened and given five seconds, then
      the task statement and the system prompt start the loop. */
  method RunTask(page: Page, env: Env, cfg: Config, question: string, web: string)
    returns (end: TaskEnd, messages: seq<Value>, observations: seq<Value>, replies: seq<string>,
             failures: seq<Failure>, calls: nat)
    modifies page
    ensures |observations| <= (if cfg.maxIter < 0 then 0 else cfg.maxIter)
    ensures end.Exhausted? ==> |observations| == (if cfg.maxIter < 0 then 0 else cfg.maxIter)
    ensures end.Crashed? <==> |observations| == |replies| + 1
    ensures !end.Crashed? ==> |observations| == |replies|
    ensures end.Crashed? ==> end.error == TypeError && ReplyAt(env.outcome, |replies|).None?
    ensures Answered(env.outcome, replies) && failures == Failures(env, cfg, replies)
    ensures calls == CallStart(env.outcome, |observations|)
    ensures var next, system := FreshMessages(env, cfg, InitMsg(question, web, cfg.textOnly)), SystemMessage(env, cfg);
            && observations == Observations(next, failures, |observations|)
            && messages == if end.Crashed? then Asked(env, cfg, next, system, replies)
                           else Conversation(env, cfg, next, system, replies)
    ensures page.log == old(page.log) + [Navigate(web), Sleep(OpeningPause)] + Events(env, cfg, replies)
                        + if end.Crashed? then [Screenshot(RunOperator.ShotPath(|observations|))] else []
    ensures end.Finished? ==> replies != [] && Contains(replies[|replies| - 1], FinishMarker)
    ensures !end.Finished? ==> NoneFinished(replies)
  {
    page.Emit(Navigate(web));
    page.Emit(Sleep(OpeningPause));
    ghost var atStart := page.log;
    assert atStart == old(page.log) + [Navigate(web), Sleep(OpeningPause)];
    var next := FreshMessages(env, cfg, InitMsg(question, web, cfg.textOnly));
    end, messages, observations, replies, failures, calls := RunLoop(page, env, cfg, next, SystemMessage(env, cfg));
  }
}

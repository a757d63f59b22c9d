# WebSTAR core in Dafny

WebSTAR drives a web browser with a computer-use model and turns the
resulting trajectories into UI-TARS training data. This project models the
deterministic rules at its centre and proves what they promise:

- **Action encoding** (`MapAction`, `Escaping`, `Json`).
  - It turns an OpenAI computer-use action record into the UI-TARS action
    language: `click(point='<point>x y</point>')`, `scroll(...)`,
    `hotkey(key='...')`, `type(content='...')`, `finished(content='...')`.
  - It encodes both raw records and their logged `{action, args}` form.
  - It also encodes the legacy `pyautogui.*` dialect.
  - Free text is escaped so that it reads back as a Python string literal,
    except text holding a carriage return or a NUL, which the escaping leaves raw.
- **Browser executors as event traces** (`Browser`, `RunOperator`,
  `RunUiTars`).
  - The page is a recorder of primitive events: moves, button and key
    presses, scrolls, typing, navigation, screenshots and pauses.
  - The Playwright computer is a class whose methods append to that log.
  - Both agent loops run on abstract model replies:
    - the OpenAI operator loop, with its retries and its processed log;
    - the UI-TARS loop, with its failure observations and screenshots.
- **Retry policies**:
  - the UI-TARS model call (`RunUiTars.CallApi`);
  - the thought/judge call of the step annotator (`StepEval.CallWithRetry`);
  - the evaluator's call that rotates between model deployments
    (`AutoEval.CallRotating`).
- **Trajectory post-processing**:
  - Reading UI-TARS action strings back, the visual overlay and the zoom
    crop box (`Visualization`).
  - The step annotator's sliding screenshot window, conversation assembly
    and judge-score extraction (`StepEval`).
  - The evaluator's early exits, answer extraction, numeric screenshot
    order and verdict (`AutoEval`).
- **The round-robin router** (`Router`): a counter that spreads requests
  over eight model replicas.

Python dictionaries are association lists (`Json.Dict`); the first binding
of a key wins, and insertion order is kept. Regular expressions are written
out as scanning functions over the text. Those that search are proved to
find the leftmost match, and where it matters, the greedy or lazy extent. Model
calls, file contents and the action parser of the UI-TARS
package are parameters of the operations that use them.

Where the code differs from what the repository describes, the model follows the code:

- A scroll whose horizontal and vertical amounts tie is encoded as a
  horizontal scroll.
- A drag is encoded from the first two points of its path, not from the
  first and the last.
- The legacy click's pixel is not clamped to the window.
- The keypress limit counts characters (30), not keys, though the comment
  beside it says "max 3 keys".
- In the step annotator, any API error other than a content-filter or
  invalid-image error reaches an unbound `model_idx`. The model therefore
  retries only when the judge's score is missing; other failures end in
  an error.

## Model

| member | source | states |
|---|---|---|
| MapAction.ScrollDirection | map_action.py:114-117 | The direction is vertical exactly when the vertical amount strictly dominates. It is down only for a positive vertical amount and right only for a positive horizontal one. |
| MapAction.ScrollDirectionNegates | map_action.py:114-117 | Negating both amounts of a scroll with a non-zero dominant amount gives the opposite direction. |
| MapAction.ScrollTieIsHorizontal | map_action.py:114-117 | Equal amounts scroll right when positive and left otherwise, so (0, 0) scrolls left. |
| MapAction.LowerAll | map_action.py:126 | Element by element, the key list with its ASCII letters lower-cased. |
| MapAction.KeysText | map_action.py:123-127 | The hotkey text is a prefix of the space-joined lower-cased keys and is at most 30 characters long. It is the whole join when that fits, exactly 30 characters otherwise, and has no ASCII upper-case letter. |
| MapAction.JoinOfLowerHasNoUpper | map_action.py:126 | Joining lower-cased keys with spaces yields no ASCII upper-case letter. |
| MapAction.ProcessedAgreesWithRaw | map_action.py:162-252 | For every known kind, encoding the logged `{action, args}` record (args = the record without "type") gives the same result as encoding the raw record. |
| MapAction.SameFieldsSameEncoding | map_action.py:74-159 | Two argument records that agree on every field but "type" encode alike. |
| MapAction.MapOaiDispatch | map_action.py:74 | The raw encoder dispatches on the record's "type" field. |
| MapAction.ClickEncoding | map_action.py:76-100 | A click becomes `right_single` for the right button, `left_double` for "double" and `click` otherwise. The point form depends only on follow_prompt. |
| MapAction.MoveIsLeftClick | map_action.py:102-107 | A move encodes exactly as a left click with the same fields. |
| MapAction.DragUsesFirstTwoPoints | map_action.py:143-149 | Points of a drag path after the second change nothing; with two points, the result is the drag from the first to the second. |
| MapAction.DragRecord | map_action.py:143-149 | A drag record is encoded from its path alone. |
| MapAction.FixedOutputs | map_action.py:135-141 | A screenshot encodes as the empty text and a wait as `wait()`. |
| MapAction.UnknownKindIsComment | map_action.py:157-159 | Every kind outside the known set, "double_click" included, becomes a `# Unknown action: <kind> ...` comment rather than an error. |
| MapAction.ContentReadsBack | map_action.py:129-133 | For text without a carriage return or a NUL, the content of a type or finished action, read back as a single-quoted Python literal, is the original text, followed by `)`. |
| MapAction.TypeRecord | map_action.py:129-133 | A type record is encoded from its text alone. |
| MapAction.FinishedRecord | map_action.py:151-155 | A finished record is encoded from its content alone. |
| MapAction.KeypressEncoding | map_action.py:123-127 | A keypress of string keys is `hotkey(key='<KeysText>')`. |
| MapAction.DecimalValue | map_action.py:41 | Python `float()` on a run of digits and dots is a non-negative value or a ValueError. |
| MapAction.RoundHalfEven | map_action.py:41-42 | Python `round()` stays within one half of its argument. |
| MapAction.RoundHalfEvenMonotonic | map_action.py:41-42 | Rounding preserves order. |
| MapAction.RoundBetween | map_action.py:41-42 | Positions between 0 and the extent round to pixels between 0 and the extent, in order. |
| MapAction.RoundWhole | map_action.py:41-42 | Whole numbers round to themselves. |
| MapAction.MatchXY | map_action.py:37-38 | The x/y pattern captures two runs of digits and dots and ends inside the text. |
| MapAction.MatchXYParts | map_action.py:37-38 | The pattern matches an x/y call that is written out, capturing its two numbers. |
| MapAction.AguvisClick | map_action.py:35-44 | A legacy click at fractions (fx, fy) becomes `click(start_box='(round(fx*W),round(fy*H))')`. |
| MapAction.MapAguvis | map_action.py:31-67 | A call with none of the four known prefixes maps to None. A click whose arguments fail the pattern raises NameError on `x1`. Only a click, a scroll or a select_option can raise. A mapped action is a click, a type, or one of the two fixed scrolls. |
| MapAction.AguvisScrollDirection | map_action.py:53-56 | For any window and any unsigned numeral of digits and dots, the legacy scroll goes down exactly when the amount is positive and unsigned. It goes up otherwise, and a numeral that float() rejects raises ValueError. |
| MapAction.ScrollOfArgument | map_action.py:53-56 | For any window and any argument text of a scroll call, the direction follows the sign of its value. An argument that is not a number raises that parse error. |
| MapAction.AguvisScrollAmount | map_action.py:53-56 | For any window and any whole amount, `pyautogui.scroll(n)` scrolls down exactly when n is positive and unsigned, and up otherwise. |
| MapAction.Encode | map_action.py:71-159 | An unknown kind gives the "# Unknown action:" comment ending with the echo. A known kind never gives a comment. Only known kinds other than wait and screenshot can raise. Wait gives "wait()" and screenshot "". A pointer action without "x" raises KeyError. |
| MapAction.MapOai | map_action.py:71-159 | A record without "type" raises KeyError. Otherwise it is encoded by its type, echoing the whole record. |
| MapAction.MapProcessed | map_action.py:162-252 | A record without "action" or "args" raises KeyError on that field. Otherwise it is encoded from "action" and "args", echoing the whole record. |
| MapAction.LowerJoin | map_action.py:126 | Lower-casing the joined keys is joining the lower-cased keys. |
| MapAction.AguvisWriteVerbatim | map_action.py:46-52 | For every window size, the legacy write keeps its message unescaped as type content. |
| Escaping.ReplaceChar | map_action.py:132 | Replacing every occurrence of a character with text lacking it leaves no occurrence. |
| Escaping.EscapeText | map_action.py:132 | The escaped text holds no raw newline. |
| Escaping.EscapeTextIsPerChar | map_action.py:132 | The chain of four whole-text replacements equals escaping each character on its own. |
| Escaping.EscapeTextConcat | map_action.py:132 | Escaping distributes over concatenation. |
| Escaping.ReadQuoted | map_action.py:19-22 | The literal reader consumes a non-empty part of its input. It refuses a raw newline, carriage return or NUL, as Python's tokenizer does. |
| Escaping.EscapeRoundTrip | map_action.py:19-22 | Escaped text without a carriage return or a NUL, followed by a closing quote, reads back as the original text, and the rest of the input is left as it was. |
| Escaping.RawLineEndUnread | map_action.py:19-22 | Text holding a carriage return or a NUL does not read back: the chain leaves them raw and the literal is refused. |
| Escaping.PlainTextUnchanged | map_action.py:132 | Text without a backslash, quote or newline is unchanged by escaping. |
| Json.Subscript | map_action.py:74 | `v[k]` succeeds exactly on a dict binding `k`, with the bound value. A dict without the key gives KeyError. |
| Json.Without | run_operator.py:161 | The dict without key `k`: no binding for `k`, every other lookup unchanged. |
| Json.KeyNames | map_action.py:126 | Iterating the keys field succeeds exactly for a string, a dict, or a list of strings. An integer is a TypeError, and a list holding a non-string is an AttributeError on `lower`. The names are the list's strings, the string's characters or the dict's keys, in order. |
| RunOperator.MapKeys | run_operator.py:109 | One name per key. A key whose ASCII-lower-cased form is in the table maps to that entry. Any other key is kept as given, not lower-cased. |
| RunOperator.ChordIsNested | run_operator.py:108-113 | Pressing the keys in order holds all of them. The whole chord releases every key, last pressed first, and never releases a key that is not held. |
| RunOperator.DragStrokes | run_operator.py:115-122 | An empty path does nothing. Otherwise the drag moves to the first point, presses, moves through the remaining points in order and releases. Read back as strokes, it visits every point of the path with the button down after the first, and ends released. |
| RunOperator.ClickShape | run_operator.py:68-87 | Every click first retargets the element under the point to `_self` and ends with the settle pause. Back and forward navigate; a wheel scrolls. Any other button presses right exactly when it lower-cases to "right". |
| RunOperator.Computer.constructor | run_operator.py:34-40 | The computer starts on the given page and key table. |
| RunOperator.Computer.Click | run_operator.py:68-87 | The page log is extended by the click's events. |
| RunOperator.Computer.DoubleClick | run_operator.py:89-91 | The log gains a double click at the point, then the pause. |
| RunOperator.Computer.Scroll | run_operator.py:93-96 | The log gains a move to the point, the wheel by (scroll_x, scroll_y) and the pause. |
| RunOperator.Computer.Type | run_operator.py:98-100 | The log gains the typed text, then the pause. |
| RunOperator.Computer.Wait | run_operator.py:102-103 | The log gains one sleep of the given length. |
| RunOperator.Computer.Move | run_operator.py:105-106 | The log gains one move. |
| RunOperator.Computer.Keypress | run_operator.py:108-113 | The log gains every mapped key pressed in order, then released in reverse. |
| RunOperator.Computer.PressKeys | run_operator.py:110-111 | The log gains one key-down per key, in order. |
| RunOperator.Computer.ReleaseKeys | run_operator.py:112-113 | The log gains one key-up per key, in the given order. |
| RunOperator.Computer.Drag | run_operator.py:115-122 | The log gains the drag's events. |
| RunOperator.Computer.MoveThrough | run_operator.py:119-120 | The log gains one move per point, in order. |
| RunOperator.Computer.Goto | run_operator.py:124-129 | Navigation is logged and followed by the pause. Navigation errors never propagate, so a url that is not a string, which the browser refuses, leaves only the pause. |
| RunOperator.Computer.Back | run_operator.py:131-133 | The log gains a back navigation and the pause. |
| RunOperator.Computer.Forward | run_operator.py:135-137 | The log gains a forward navigation and the pause. |
| RunOperator.Computer.TakeScreenshot | run_operator.py:139-141 | The log gains one screenshot at the path. |
| RunOperator.Computer.Execute | run_operator.py:163-164 | The log gains the events of the bound action. |
| RunOperator.DragPath | run_operator.py:115-122 | A list path gives its points as PathPoints reads them. A falsy path (an empty string, an empty dict or zero) is an empty drag, which performs nothing. |
| RunOperator.Bind | run_operator.py:164 | Binding succeeds only for a driver action of the computer. A name the computer does not define is an AttributeError. |
| RunOperator.BindOtherAttribute | run_operator.py:143-164 | Another attribute of the computer (its constructor, `get_environment`, `get_current_url`, `args`, `task` and its browser fields) is a TypeError, since it cannot be called with the arguments or awaited. |
| RunOperator.HandleItemContract | run_operator.py:150-175 | A computer call's output is followed by a screenshot. The output echoes the call id and the pending safety checks, or the empty list. Items that are not computer calls return None and do nothing. |
| RunOperator.ComputerCallEvents | run_operator.py:158-175 | A well-formed computer call that is not a screenshot performs exactly its action's events, then one screenshot. |
| RunOperator.HandleCall | run_operator.py:150-175 | The output and events of a bound computer call. |
| RunOperator.HandleItem | run_operator.py:150-175 | Returns the item's output and appends exactly its events to the page log. |
| RunOperator.Built | run_operator.py:257-265 | The entry is built exactly when both `message_type` and `content` are bound; otherwise a NameError. |
| RunOperator.LogEntries | run_operator.py:241-265 | At most one log entry per output, and one for each output when nothing fails. |
| RunOperator.StaleContentAfterRaise | run_operator.py:250-265 | A reasoning item whose summary cannot be read still sets the type to "thought". An item of another type after it is logged as a "thought" with the content of the last item that was read. |
| RunOperator.LoggedActionReplays | run_operator.py:242-249 | A computer call sets both variables and is logged as an "action" whose record encodes to the same UI-TARS text as the raw action. |
| RunOperator.LoggedTextKinds | run_operator.py:250-255 | Reasoning is logged as a "thought" and a message as a "final_answer", with its text, and both variables are set to them. |
| RunOperator.LogOutputs | run_operator.py:241-267 | The logging loop computes LogEntries. |
| RunOperator.Attempt | run_operator.py:214-268 | One request of round `it`. In the first round it takes screenshot 0 first and starts from the first input; later rounds name the last response received. Afterwards the loop state tracks the first `calls + 1` answers: the processed log gains the entries logged from the answer, the raw log gains its items only when all were logged, and the last response is updated. `done` holds exactly when the answer came with an output list that was fully logged. The page log gains screenshot 0 in the first round only. |
| RunOperator.RequestRound | run_operator.py:211-275 | A round makes 1 to 20 requests, as `RoundSent` says. Every request carries the round's input and, after the first round, the id of the last answer. No answer before the last one was fully logged. The round stops at the first fully logged answer, or after 20 attempts without one. The page log gains each attempt's events and a 10-second pause after every failed attempt. |
| RunOperator.HandleRound | run_operator.py:279-288 | The items handled are a prefix of the output list, ending at the first message or at the first item whose handling raises. Otherwise every item is handled. Every item before the last succeeded and was not a message. A crash carries the last item's error. The next input is the output of the last computer call handled. The page log gains exactly the handled items' events. |
| RunOperator.RunTask | run_operator.py:205-294 | `RunShape`: both logs are the initial user item followed by what was logged from the answers to all requests sent. Each round made 1 to 20 requests, as `RoundSent` says, and only the first round's requests name no previous response. Round 0 used the first input, and each later round used the input left by the previous round's handling. `RunEnding`: at most max_iter rounds ran, exactly max_iter when exhausted. Every round but the last handled its whole output list, and the last handled a prefix of it. A crash for an unbound response means no answer came back; a crash for a missing output list means the last answer had none. The run is answered exactly when the last item handled is a message. The page log gains the events of every round: attempts, pauses and handled items. |
| RunOperator.HandleResponse | run_operator.py:277-291 | With no answer received the round crashes with NameError on `response`. With no output list it crashes with ValueError. Otherwise the round handles the output list as HandleRound does, and the page log gains exactly the handled items' events. |
| RunOperator.PlayRound | run_operator.py:210-291 | One round, from the requests to the handling. It extends the record of the rounds played by its requests, its input and its handled items. Its output list is that of the last answer received. |
| RunOperator.Step | run_operator.py:209-294 | A round that does not stop the run keeps the loop's invariant. One that stops it ends the run with `RunShape` and `RunEnding`. The page log gains the round's events. |
| RunOperator.HandleErrorKinds | run_operator.py:150-175 | Handling an item can raise only KeyError, IndexError, TypeError or AttributeError. |
| RunOperator.ProcessedCoversRaw | run_operator.py:241-268 | The raw log never holds more items than the processed log. |
| RunOperator.LoggedGrows | run_operator.py:241-268 | Both logs only grow from answer to answer: earlier contents are kept as a prefix. |
| RunOperator.RoundsSentCount | run_operator.py:211-275 | The record of the rounds accounts for every request sent, and each round made 1 to 20. |
| RunOperator.RetriedSent | run_operator.py:211-275 | When the retries end, the requests of the round are as `RoundSent` says: 20 of them without a fully logged answer, or fewer ending with one. |
| RunUiTars.CallApi | run_uitars.py:172-214 | At most 10 calls, all but the last retryable. Success returns the content and token counts; every other end returns the error flag with nothing else. It stops before 10 calls only on a non-retryable outcome. Each retryable failure is followed by its backoff pause. Its result and request count are `ApiRun`'s, so that the loop can be stated over them. |
| RunUiTars.HotkeyKeysOfWords | run_uitars.py:252-254 | For key words joined by spaces, one key is pressed per word, in order. Each key is the word with its ASCII letters lower-cased, mapped through the table, or that lower-cased word itself. This rests on `str.split()` giving the words back (Common.WordsOfJoin). |
| Common.WordsOfJoin | run_uitars.py:252-254 | `str.split()` of words joined by single spaces gives the words back. |
| RunUiTars.HotkeyIsNested | run_uitars.py:252-260 | A hotkey holds all its keys at once and releases them in reverse, each event followed by a pause. |
| RunUiTars.PerformHotkey | run_uitars.py:241-260 | The log gains the hotkey events of the parsed keys. |
| RunUiTars.PressChord | run_uitars.py:255-260 | The log gains the paced presses, then the paced releases in reverse. |
| RunUiTars.PressInOrder | run_uitars.py:255-257 | The log gains each key-down and its pause, in order. |
| RunUiTars.ReleaseInReverse | run_uitars.py:258-260 | The log gains each key-up and its pause, in reverse order. |
| RunUiTars.ScrollDistance | run_uitars.py:267-268 | The distance is a third of the window height (floor division). It is positive exactly for "down", and negative for every other direction, left and right included. |
| RunUiTars.ClickAction | run_uitars.py:409-412 | A click that can be executed takes no screenshot. |
| RunUiTars.TypeAction | run_uitars.py:413-415 | A type that can be executed takes no screenshot. |
| RunUiTars.HotkeyAction | run_uitars.py:416-417 | A hotkey takes no screenshot. |
| RunUiTars.ScrollAction | run_uitars.py:418-420 | A scroll that can be executed takes no screenshot. |
| RunUiTars.DragAction | run_uitars.py:421-423 | A drag that can be executed takes no screenshot. |
| RunUiTars.HotkeyTakesNoScreenshot | run_uitars.py:241-260 | The hotkey events hold no screenshot. |
| RunUiTars.ClickKindsAgree | run_uitars.py:409-412 | click, left_double and right_single are executed alike, as one left click. |
| RunUiTars.DragStroke | run_uitars.py:275-282 | A drag presses at the first corner of its box and releases at the second, ending up. |
| RunUiTars.PressMoveRelease | run_uitars.py:278-282 | Press, move, release draws exactly one stroke between the two points. |
| RunUiTars.ExecAction | run_uitars.py:400-426 | Executes an action's events and returns its effect. |
| RunUiTars.ExecTraceFailure | run_uitars.py:400-431 | With no action the pending failure observation is kept. Otherwise, when some action is "finished" the observation is cleared; when none is, it is "cannot be executed" exactly when the last action raised, and cleared otherwise. |
| RunUiTars.ActionTakesNoScreenshot | run_uitars.py:408-426 | No executor takes a screenshot. |
| RunUiTars.ExecTraceTakesNoScreenshot | run_uitars.py:400-431 | Executing a reply's actions takes no screenshot. |
| RunUiTars.ExecOne | run_uitars.py:405-431 | "finished" stops the actions without events. Any other action logs its events and a pause, and sets the failure exactly when it raised. |
| RunUiTars.ExecActions | run_uitars.py:400-431 | Executing a reply's actions computes the execution trace. |
| RunUiTars.ObservationText | run_uitars.py:86-121 | The first iteration starts with the task message. Later ones start with "Observation:" and include a non-empty PDF observation. |
| RunUiTars.FormatMsg | run_uitars.py:86-121 | A user message with exactly one text block, then one image block. |
| RunUiTars.FormatMsgTextOnly | run_uitars.py:124-142 | A user message with string content ending in the accessibility tree; the first iteration is the task message, a newline and the tree. |
| RunUiTars.LaterMessagesRepeatPrompt | run_uitars.py:330-334 | After the first iteration, the fresh message is the observation message of that iteration. |
| RunUiTars.Iteration | run_uitars.py:321-431 | One iteration takes exactly its screenshot. Its message is fresh unless a failure is pending, and joins the clipped conversation as `Joined` says. Its reply is `ApiRun`'s answer from the next request on. With no reply it crashes with a TypeError after the screenshot. Otherwise the reply joins the conversation, the failure and page events are `ReplyOutcome`'s, and it finishes exactly when the reply holds "Action: finished". |
| RunUiTars.ReplyFailure | run_uitars.py:373-431 | The failure a reply leaves: the first format error without "Action:", the second when its actions do not parse, and otherwise the verdict of `ExecTraceFailure` on its actions. A reply's own events hold no screenshot. |
| RunUiTars.Observe | run_uitars.py:324-349 | Takes the iteration's screenshot. A fresh message is added and clipped, then the whole is clipped again. A pending failure is appended and clipped once. |
| RunUiTars.Respond | run_uitars.py:351-431 | Takes no screenshot. With a failed model call it crashes with a TypeError and changes nothing else. Otherwise the reply is appended to the conversation, and the failure and page events are those `ReplyOutcome` gives. It finishes exactly on "Action: finished". |
| RunUiTars.ExecReply | run_uitars.py:400-431 | The page gains exactly the execution trace's events, which hold no screenshot, and the failure is the trace's. |
| RunUiTars.ShotPathsAt | run_uitars.py:326-327 | The i-th screenshot of a run is `screenshot<i+1>.png`. |
| RunUiTars.AnsweredIff | run_uitars.py:321-360 | The loop's replies are the model's answers in turn exactly when reply i answers the (i+1)-th model call, each call starting where the previous one stopped. |
| RunUiTars.FailuresAt | run_uitars.py:336-431 | The failure observation after reply i is the one that reply leaves, given the failure pending before it. |
| RunUiTars.RunFailures | run_uitars.py:373-431 | Across a run, the failure after reply i is the first format error without "Action:", the second when its actions do not parse, and otherwise set by its last action's outcome as `ExecTraceFailure` says. |
| RunUiTars.EventsShots | run_uitars.py:321-327 | The page events of a run hold one screenshot per iteration, `screenshot1.png` first, in order. |
| RunUiTars.LogShots | run_uitars.py:321-327 | The same holds when the last iteration crashed after its screenshot. |
| RunUiTars.NoneFinishedIff | run_uitars.py:378-379 | No reply has ended the task exactly when none contains "Action: finished". |
| RunUiTars.Turn | run_uitars.py:321-431 | One pass of the loop extends the run by one iteration. The new reply is the model's next answer, and the failure, conversation, message, requests and page events follow from it. A failed call leaves the replies unchanged and crashes. |
| RunUiTars.RunLoop | run_uitars.py:321-431 | At most max_iter iterations, all of them when exhausted. The replies are the model's answers in turn, and the failures are those the replies leave. Each message is fresh exactly when no failure is pending. The conversation, requests made and page events are those of the replies. A failed model call crashes with a TypeError after its iteration's screenshot and message. The first reply holding "Action: finished" finishes, and screenshot1, screenshot2, ... are taken in order. |
| RunUiTars.RunTask | run_uitars.py:285-431 | The site is opened and given five seconds. The loop then runs from the system prompt and the task's first message, with everything `RunLoop` states. |
| Visualization.MatchCall | step_eval/data_visualization_full.py:151-153 | A match exists exactly when the line starts with a word, then `(`, and a `)` occurs before the end of the line. The name is that word. The argument runs to the last `)` before the line ends, and holds no newline. |
| Visualization.KvAt | step_eval/data_visualization_full.py:160 | A key/value match is a word, `=`, and a quoted value free of its quote character. |
| Visualization.ArgsOfLastWins | step_eval/data_visualization_full.py:161-162 | Every key of the pairs is bound, to the value of its last pair. |
| Visualization.ParseAction | step_eval/data_visualization_full.py:150-164 | Parsing succeeds exactly when the call pattern matches, and the verb is its leading word. |
| Visualization.EscapedQuoteEndsValue | step_eval/data_visualization_full.py:160 | An escaped quote ends a quoted value early. |
| Visualization.SinglePair | step_eval/data_visualization_full.py:160-162 | One key with a single-quoted value parses as exactly that pair. |
| Visualization.SearchPoint | step_eval/data_visualization_full.py:189 | The point found is the leftmost match of the pattern at or after the start. There is none exactly when no position matches. |
| Visualization.PointPosition | step_eval/data_visualization_full.py:189 | The first position at or after the start where the pattern matches. Every position before it, or every position when there is none, has no match. |
| Visualization.PointReadsBack | step_eval/data_visualization_full.py:189 | `<point>x y</point>` is read back as (x, y). |
| Visualization.BoxPosition | step_eval/data_visualization_full.py:199 | The first position at or after the start where the box pattern matches. Every position before it, or every position when there is none, has no match. |
| Visualization.SearchBox | step_eval/data_visualization_full.py:199 | The start box found is the leftmost match at or after the start, and its two captures are runs of digits and dots. There is none exactly when no position matches. |
| Visualization.TruncatedFloat | step_eval/data_visualization_full.py:201-202 | `int(float(g))` succeeds exactly when g has a digit and at most one dot. |
| Visualization.TruncatedWhole | step_eval/data_visualization_full.py:201-202 | A written whole number truncates to itself, with or without a fraction. |
| Visualization.ClickAt | step_eval/data_visualization_full.py:186-206 | The centre of a click comes from its point, else from its start box. A start box that is not a number is a ValueError. |
| Visualization.ClickReadsBack | step_eval/data_visualization_full.py:186-195 | What the encoder writes for a click at a pixel is drawn with its centre at that pixel. |
| Visualization.DragPoints | step_eval/data_visualization_full.py:209-216 | A drag is drawn only when both of its points are present. |
| Visualization.Midpoint | step_eval/data_visualization_full.py:218-219 | The integer midpoint lies between the two ends on each axis. |
| Visualization.ScrollEnd | step_eval/data_visualization_full.py:226-237 | The arrow ends 50 pixels from its start in the named direction. An unknown direction reuses the earlier end point. |
| Visualization.Tabbed | step_eval/data_visualization_full.py:249-250 | Typed content as the overlay shows it holds no newline. |
| Visualization.StepOverlay | step_eval/data_visualization_full.py:178-183 | An unparseable action changes nothing. A parseable one adds its numbered name line and at most one centre, keeping the earlier ones. |
| Visualization.StepVerb | step_eval/data_visualization_full.py:185-257 | A verb keeps the name lines and adds at most one centre. |
| Visualization.ActionsVisual | step_eval/data_visualization_full.py:175-257 | The overlay loop computes the overlay of the action list. |
| Visualization.DrawAction | step_eval/data_visualization_full.py:185-257 | One parsed action's step of the loop. |
| Visualization.VisualPrefix | step_eval/data_visualization_full.py:178-257 | The overlay of one more action is its step applied to the overlay so far. |
| Visualization.ErrorSticks | step_eval/data_visualization_full.py:178-257 | An exception raised by one action ends the whole call. |
| Visualization.OverlayNames | step_eval/data_visualization_full.py:178-183 | The name lines are the numbered verbs of the parseable actions; skipped actions keep their number. There is at most one centre per action. |
| Visualization.HotkeyReplacesText | step_eval/data_visualization_full.py:253-254 | A hotkey replaces the whole text by its keys. |
| Visualization.TypeAddsLine | step_eval/data_visualization_full.py:247-251 | A type adds one numbered line holding its content, with every `\n` replaced by a tab. |
| Visualization.AppendStep | step_eval/data_visualization_full.py:178-183 | One more action applies its step to the overlay so far. |
| Visualization.ScrollDefaultsDown | step_eval/data_visualization_full.py:228-237 | A scroll naming no direction is drawn from the image centre, 50 pixels down. |
| Visualization.UnknownScrollRaises | step_eval/data_visualization_full.py:228-241 | A first action that scrolls in an unknown direction raises on the unset end point. |
| Visualization.StrokeBox | step_eval/data_visualization_full.py:311-329 | The box of a drag or scroll lies inside the image. |
| Visualization.CropBox | step_eval/data_visualization_full.py:303-335 | There is a box exactly when there is an action centre, and it lies inside the image. |
| Visualization.ClickCropKeepsCentre | step_eval/data_visualization_full.py:330-335 | A click inside the image stays inside its crop box, and the box is the clamped square around it. |
| Visualization.StrokeCropKeepsEnds | step_eval/data_visualization_full.py:311-329 | Both ends of a stroke inside the image stay inside its crop box. |
| StepEval.FirstScoreFrom | step_eval/generate_thought_and_process_no_ss.py:42-47 | Finds the leftmost match at or after the start, or none exactly when no position matches. |
| StepEval.JudgeScoreMatches | step_eval/generate_thought_and_process_no_ss.py:36-55 | A reply is retried exactly when "Expected value:" followed by digits appears nowhere. The first match with a value within 0..10 is returned. |
| StepEval.OutOfRangeScoreKept | step_eval/generate_thought_and_process_no_ss.py:42-50 | A score out of range is still returned when it is the last match. |
| StepEval.NewlineFormIsPlain | step_eval/generate_thought_and_process_no_ss.py:38-41 | Every match of the newline form is a match of the plain form. |
| StepEval.CallWithRetry | step_eval/generate_thought_and_process_no_ss.py:18-70 | Between 1 and 19 attempts, all but the last retried. A thought returns its text, and a judge returns a scored reply. A content filter returns its sentinel, and running out returns None. |
| StepEval.TryOnce | step_eval/generate_thought_and_process_no_ss.py:28-70 | One attempt decides as `Attempt` says. A thought reply is returned as text. A judge reply with a score is returned with that score, and one without asks for another attempt. A content-filter error gives the sentinel, and an invalid-image error gives None. Any other error raises NameError on `model_idx`. |
| StepEval.RetriedShape | step_eval/generate_thought_and_process_no_ss.py:20-57 | A thought call yields text; a judge call yields a scored reply or the sentinel. |
| StepEval.ContentFilterStops | step_eval/generate_thought_and_process_no_ss.py:59-63 | A content-filter error stops the call at once with the sentinel. |
| StepEval.EligibleIndices | step_eval/generate_thought_and_process_no_ss.py:131-132 | The annotated messages are exactly the actions and final answers, in increasing order. |
| StepEval.PushCapped | step_eval/generate_thought_and_process_no_ss.py:150-152 | Appending and then dropping the oldest entry when over the cap keeps the last n entries. |
| StepEval.RecentWindow | step_eval/generate_thought_and_process_no_ss.py:143-152 | The window holds at most 3 screenshots, the most recent ones, in order. |
| StepEval.FinalAnswerVerbatim | step_eval/generate_thought_and_process_no_ss.py:136-140 | A final answer holding `finished(content=` is kept as it is. Any other is wrapped in one, unescaped. |
| StepEval.ActionTexts | step_eval/generate_thought_and_process_no_ss.py:132-140 | Entry i is the action text of message i for every action and final-answer message: "\nAction: " followed by the encoded action, or by the final answer. |
| StepEval.StartMessage | step_eval/generate_thought_and_process_no_ss.py:87-105 | The walk starts exactly when the first message is text mentioning "Now given a task" and naming a task. It starts with that text plus the image prompt. |
| StepEval.AnnotateStep | step_eval/generate_thought_and_process_no_ss.py:197-233 | One step combines the thought call and the judge call. |
| StepEval.BuildingDropsLast | step_eval/generate_thought_and_process_no_ss.py:245-260 | Dropping the last entry of the conversation under construction leaves alternating assistant and user turns after the start. |
| StepEval.BuildingStep | step_eval/generate_thought_and_process_no_ss.py:245-255 | An assistant turn and a user turn extend the conversation by one step. |
| StepEval.ShotPathsIndex | step_eval/generate_thought_and_process_no_ss.py:143 | Entry k of the image list is `screenshot{k}.png`. |
| StepEval.PushRecent | step_eval/generate_thought_and_process_no_ss.py:150-152 | Appending and popping the oldest entry keeps the last 3. |
| StepEval.Extend | step_eval/generate_thought_and_process_no_ss.py:235-255 | The bookkeeping keeps the walk's invariant:<br>- one image per annotated message;<br>- the window of the last 3 screenshots;<br>- the last 3 quoted actions;<br>- the alternating conversation.<br>previous_actions is never trimmed. |
| StepEval.KeepSoFarShape | step_eval/generate_thought_and_process_no_ss.py:223-228 | The content-filter return keeps the conversation so far and one more image. |
| StepEval.Settle | step_eval/generate_thought_and_process_no_ss.py:213-255 | Once the action text is known, the step decides as `VisitOf` says. A raising call raises; a missing or filtered thought, or a missing judgement, abandons; a filtered judgement returns the conversation so far with one more image. Otherwise one assistant entry and one user entry are appended and the invariant is kept. |
| StepEval.Advance | step_eval/generate_thought_and_process_no_ss.py:132-255 | The action text, then the two calls for this message. The walk stops exactly when `VisitOf` says so, with its result. Otherwise it goes on with `VisitOf`'s conversation and the invariant kept. |
| StepEval.Scan | step_eval/generate_thought_and_process_no_ss.py:131-258 | Other messages are passed over. After each message the annotated ones are exactly the eligible ones so far. The walk from this message is what this pass left, followed by the walk from the next one (`WalkedOn`). |
| StepEval.WalkMessages | step_eval/generate_thought_and_process_no_ss.py:131-266 | The loop's result and the number of messages it moved past are `Walked` over the messages' action texts and steps. The conversation alternates and has its last entry dropped. The images are the screenshot paths in order. The walk stops only at the end of the log or right after the first final answer. |
| StepEval.WalkedStopsAtFinal | step_eval/generate_thought_and_process_no_ss.py:131-258 | The walk moves past no final answer except, possibly, the last message it moves past. |
| StepEval.WalkedEnding | step_eval/generate_thought_and_process_no_ss.py:213-266 | An error is that of the message's action text or of one of its calls. The trajectory is abandoned exactly when the thought is missing or filtered, or the judgement is missing. A returned conversation comes with the screenshot paths of the annotated messages, the walk having reached the end of the log or a final answer. Or it comes with one more path when the judge hit the content filter. |
| StepEval.TranscriptStep | step_eval/generate_thought_and_process_no_ss.py:235-255 | A visit that goes on appends exactly the message's assistant entry and a user entry to the transcript. |
| StepEval.TranscriptStops | step_eval/generate_thought_and_process_no_ss.py:213-228 | A walk stopped at a message returns, when it returns a conversation, the transcript without its final user entry. |
| StepEval.TranscriptFinal | step_eval/generate_thought_and_process_no_ss.py:257-266 | Annotating a final answer returns the transcript with that answer's entry last. |
| StepEval.WalkedTranscript | step_eval/generate_thought_and_process_no_ss.py:235-266 | From a built transcript, a conversation the walk returns is the finished transcript of the annotated messages. |
| StepEval.WalkFromStart | step_eval/generate_thought_and_process_no_ss.py:131-266 | From the start message, the walk stops at the first final answer, ends as `Ending` says, and returns the finished transcript when it returns a conversation. |
| StepEval.TranscriptEntries | step_eval/generate_thought_and_process_no_ss.py:245-255 | Entry 0 is the start message. Entry 2j+1 is the j-th annotated message's assistant entry: "Thought: " plus its thought plus its action text, with the judge's score and content. Entry 2j+2 is a user entry. |
| StepEval.FinishedEntries | step_eval/generate_thought_and_process_no_ss.py:245-260 | The returned conversation entry by entry: the start message, then the j-th annotated message's assistant entry at 2j+1, with user entries between them and none at the end. It is empty when nothing was annotated. |
| StepEval.AutoEvalByGpt | step_eval/generate_thought_and_process_no_ss.py:78-266 | A missing log file returns the no-file result, and a failed start check returns its error. Otherwise the result and the messages moved past are `Walked` from the start message over `ActionTexts` and `Steps`, and the walk's promise holds. |
| AutoEval.BasenameSplits | evaluation/auto_eval_parallel.py:43 | The task id is the last path component, holds no "/" and ends the directory path. |
| AutoEval.In | evaluation/auto_eval_parallel.py:66 | `in` is a substring test on text. It raises only on an integer. |
| AutoEval.VerdictCases | evaluation/auto_eval_parallel.py:180-182 | The verdict is 0 exactly for "NOT SUCCESS", 1 exactly for "SUCCESS" without "NOT SUCCESS", and None exactly when "SUCCESS" is absent. |
| AutoEval.TaskAtSound | evaluation/auto_eval_parallel.py:74-76 | The task capture is non-empty, has no newline and ends at the first closing marker. |
| AutoEval.TaskStart | evaluation/auto_eval_parallel.py:74-76 | The task is taken from the leftmost match. |
| AutoEval.FinishedAtSound | evaluation/auto_eval_parallel.py:87-91 | The finished answer lies between the opening quote and a quote-and-parenthesis. |
| AutoEval.FinishedStart | evaluation/auto_eval_parallel.py:87-91 | The answer is taken from the leftmost match. |
| AutoEval.LastClose | evaluation/auto_eval_parallel.py:88 | The greedy end is the last quote followed by `)`. |
| AutoEval.FinishedGreedy | evaluation/auto_eval_parallel.py:88-91 | An answer holding `')` is captured up to the last one. |
| AutoEval.AnswerAtShape | evaluation/auto_eval_parallel.py:98-101 | An ANSWER capture is non-empty and holds no `]` after its first character. |
| AutoEval.AnswerStart | evaluation/auto_eval_parallel.py:98-101 | The ANSWER is taken from the leftmost match. |
| AutoEval.ShotNumberOfSaved | evaluation/auto_eval_parallel.py:107-108 | The file saved for step k is read back as number k. |
| AutoEval.Numbered | evaluation/auto_eval_parallel.py:108 | At most one numbered entry per listed name. |
| AutoEval.InsertSorted | evaluation/auto_eval_parallel.py:109 | Inserting into a number-sorted list keeps it sorted. |
| AutoEval.InsertKeeps | evaluation/auto_eval_parallel.py:109 | Inserting adds exactly the new entry. |
| AutoEval.SortByNumberSorted | evaluation/auto_eval_parallel.py:109 | The sort orders the screenshots by number. |
| AutoEval.SortByNumberPermutes | evaluation/auto_eval_parallel.py:109 | The sort keeps every entry. |
| AutoEval.SortByNumberStable | evaluation/auto_eval_parallel.py:109 | Entries with equal numbers keep their listing order. |
| AutoEval.KeepLast | evaluation/auto_eval_parallel.py:110 | `matches[-img_num:]` is a suffix of the list: all of it for 0, the last img_num entries for a positive count. |
| AutoEval.NumericNotLexical | evaluation/auto_eval_parallel.py:107-110 | For any two screenshots numbered m < n that the listing gives in the order n, m (as screenshot10 before screenshot9), the attachment order is m, n. |
| AutoEval.CallRotating | evaluation/auto_eval_parallel.py:134-169 | Attempt k uses deployment k mod 3. There are at most 9 calls, all but the last failed. It answers with the reply, exits on an invalid request, or gives up after 9 failures. |
| AutoEval.RotationCovers | evaluation/auto_eval_parallel.py:134-147 | Any three consecutive attempts use all three deployments. |
| AutoEval.EarlyExits | evaluation/auto_eval_parallel.py:44-72 | A missing log, a log with one message and a task without "Now given a task" each end with accuracy 0 and their reason. |
| AutoEval.NoAnswerExit | evaluation/auto_eval_parallel.py:78-85 | A final text with neither "Action: ANSWER" nor `finished(content=` ends with accuracy 0 and "Not find answer". |
| AutoEval.TextAnswerBound | evaluation/auto_eval_parallel.py:98-101 | A text answer naming an ANSWER action never ends in the unbound-answer error. |
| AutoEval.AutoEvalByGpt4v | evaluation/auto_eval_parallel.py:39-189 | The task id is the basename. Early exits return their report without a model call. Otherwise the last img_num screenshots in numeric order are attached, and the rotating retry and the verdict decide the accuracy. |
| Router.ReplicaUrlsDistinct | flask_router.py:8-9 | The eight replicas have distinct URLs. |
| Router.TargetPeriod | flask_router.py:18-20 | Requests k apart reach the same replica exactly when k is a multiple of 8. |
| Router.Window | flask_router.py:18-20 | The eight requests from a counter value go to `VLLM_URLS[(counter + i) mod 8]`. |
| Router.WindowDistinct | flask_router.py:8-20 | Eight consecutive requests reach eight different replicas. |
| Router.WindowCovers | flask_router.py:8-20 | Eight consecutive requests reach every replica. |
| Router.Respond | flask_router.py:29-41 | A method other than POST, GET or OPTIONS is 405, and a connection failure is 502 naming the backend URL. Otherwise the backend's content and status are forwarded. |
| Router.Proxy.constructor | flask_router.py:13 | The counter starts at 0. |
| Router.Proxy.Handle | flask_router.py:15-41 | For a method the route admits, the target is `VLLM_URLS[counter mod 8]` + "/v1/" + endpoint. The counter advances by exactly 1 whatever the outcome. |
| Router.Proxy.Serve | flask_router.py:15-41 | A method the route admits is proxied as in Handle. Any other method is refused with 405 before the view runs, and the counter does not move. |
| Router.HeadRefused | flask_router.py:15-37 | HEAD reaches the view, because the route admits GET, and is answered with the JSON 405 "Method HEAD not supported". |

## Left out

- Playwright, the browser, screenshots' pixels and the OpenAI, vLLM and local model calls are not modelled. Their outcomes are parameters (`nat -> Outcome` sequences, reply functions), and the page is a log of events.
- `asyncio.sleep` and `time.sleep` pauses on the page are recorded as `Sleep` events, including the five-second pause after the UI-TARS runner opens the start page; time itself is not modelled.
- StepEval.CallWithRetry: the pauses between attempts (generate_thought_and_process_no_ss.py:54, 70) are not recorded; only the attempts and their outcomes are.
- AutoEval.CallRotating: the pauses between requests (auto_eval_parallel.py:163, 165, 169) are not recorded; only the models asked and the outcomes are.
- Concurrency is not modelled: the thread pool of the step annotator, `asyncio.run` per thread and the router's lock. The two model calls of a step and the router's counter are sequential.
- `utils.clip_message_and_obs`, `parse_action_to_structure_output` and the computer-use key table are uninterpreted parameters, and so is the accessibility-tree extraction.
- Prompt text (prompts.py, step_eval/gpt_prompts.py) is not part of this model, including the text substitutions into the judge prompt. Only the markers the code tests for are kept.
- Rendering is not modelled: convert_to_video.py, the PIL drawing, arrowheads and the float scale factors of the zoom crop. The overlay records names, text and centres; the crop box is integer arithmetic.
- The token-cost arithmetic is floating point and is not modelled. In `map_aguvis_action`, reals with round-half-even to three places stand in for the binary floats of the click scaling and of `round(..., 3)`.
- MapAction.SignedDecimal: accepts only an optional sign, digits and one point. Python's float() also accepts exponents ("1e3"), "inf", "nan" and digit separators ("1_0"), which the legacy scroll therefore reads as numbers where the model raises ValueError.
- Json.Repr: strings are always in single quotes and never escaped. Python's repr() switches to double quotes for a string holding a single quote and no double quote, and escapes backslashes and control characters, so the "# Unknown action:" echo of such a value differs.
- Common.IsSpace: the ASCII whitespace of `str.split()` and `strip()` only. Unicode spaces such as U+0085, U+00A0 and U+3000 are not treated as whitespace.
- Regular-expression classes `\w`, `\d` and `\s` are ASCII only, and IGNORECASE is taken on ASCII letters.
- Common.Lower: `str.lower()` is modelled on ASCII letters only. Python also lower-cases other letters ("É" to "é") and can lengthen a string ("İ" becomes two characters). The following members share this limit.
- MapAction.LowerAll: the keys are lower-cased on ASCII letters only.
- MapAction.KeysText: the lower-casing and the 30-character cut are taken on ASCII-lowered keys, and "no upper-case letter" means no ASCII upper-case letter.
- MapAction.JoinOfLowerHasNoUpper: states the absence of ASCII upper-case letters only.
- RunOperator.MapKeys: the key table is looked up with the ASCII-lowered key.
- RunUiTars.HotkeyKeysOfWords: each key word is lowered on ASCII letters only.
- Browser exceptions are not modelled: every Playwright call succeeds. In the source, a timeout or another Playwright error inside an action raises. The members below share this limit.
- RunUiTars.ExecTraceFailure: "raised" covers malformed action inputs only. A Playwright exception caught by the `try` at run_uitars.py:407-431, which also sets "cannot be executed" and pauses three seconds, is not modelled.
- RunUiTars.ExecOne: an action raises only when its inputs are malformed, never because the browser failed.
- RunUiTars.ReplyFailure: its `ExecTraceFailure` arm omits browser exceptions.
- RunUiTars.RunFailures: the per-reply failures omit browser exceptions.
- RunOperator.HandleErrorKinds: holds because the browser never fails. In the source, an exception from an action or from `computer.screenshot` (run_operator.py:140, 164-165) escapes `handle_item` and ends the run.
- RunUiTars.Respond: the backoff pauses `RunUiTars.CallApi` returns (run_uitars.py:198, 201) are not put in the page log.
- Visualization.TruncatedFloat: `int(float(g))` is computed exactly. Python's float rounds numerals above 2^53 ("12345678901234567" gives 12345678901234568) and overflows to infinity near 1e309, which makes `int` raise OverflowError. The model succeeds on every well-formed numeral.
- Visualization.TruncatedWhole: holds for every whole number. In Python it holds only up to 2^53, where float is exact.
- RunOperator.Bind: a click whose button is not a string fails before any event. In the source, the retargeting script (run_operator.py:70-77) has already run on the page when `button.lower()` raises AttributeError (run_operator.py:86).
- RunOperator.HandleItem: a drag whose later point lacks "x" or "y" fails before any event. In the source, the first move and the press (run_operator.py:117-118), and the moves to the earlier points, have already happened when the KeyError is raised, and the mouse button stays down. The page log gains none of those events here.
- RunOperator.Bind: Python's special attributes other than `__init__` (`__aenter__`, `__class__`, `__str__` and the like) are treated as names the computer does not define. In the source, calling them does various things, and `__aenter__` even starts a second browser.
- Escaping.ReadQuoted: refuses a backslash before a carriage return, which Python reads as a line continuation. The escaping never produces one.
- Escaping.EscapeRoundTrip: requires text without carriage returns and NULs, because the escaping chain leaves them raw and Python refuses them in a literal (Escaping.RawLineEndUnread).
- MapAction.ContentReadsBack: requires text without carriage returns and NULs, for the same reason.
- JSON text encoding and decoding (`json.dumps`/`json.loads`) are the identity on `Json.Value`.
- AutoEval.AutoEvalByGpt4v: the screenshots are taken in the order the directory lists them (an input), not in the order of `sorted(os.listdir(...))`.
- The `None` content of a model reply and task information of exotic types are not modelled beyond the Value cases they reach.
- Json.Value: has no float, boolean or null case, only strings, integers, lists and dicts. So a float coordinate such as `x=1.5` in a computer call's action, or `null` or `true` as an argument, cannot be stated. The source passes such values on to the browser or the encoders, where they print, compare and fail in their own ways.
- The router's request-parsing errors, its health route and the headers it copies are not modelled.
- Logging, `print`, `main()`, argument parsing, directory scanning and JSON dumps to files are not modelled.
- RunUiTars.RunTask: images preloaded as base64 are not modelled; the screenshot path stands for the image.

/** The action-string encoder: translates an action in one of the upstream
    dialects into the UI-TARS textual action language
    (`click(point='<point>x y</point>')`, `scroll(...)`, `hotkey(key=...)`,
    `type(content=...)`, ...).

    Two dialects are structured: the computer-use action record
    `{type, x, y, button, ...}` (MapOai) and its logged form
    `{action: type, args: <the other fields>}` (MapProcessed); one is textual,
    the legacy proportional `pyautogui.*` call syntax (MapAguvis). */
module MapAction {
  import opened Common
  import opened Json
  import Escaping

  // ---------------------------------------------------------------------------
  // Pieces of the encoding

  /** The verb a click button selects; any button other than "right" and
      "double" (including a missing-in-table one) is a plain click. */
  function ClickVerb(button: Value): string {
    if button == Str("left") then "click"
    else if button == Str("right") then "right_single"
    else if button == Str("double") then "left_double"
    else "click"
  }

  /** The point argument in either of the two forms `follow_prompt` selects. */
  function PointArg(x: Value, y: Value, followPrompt: bool): string {
    if followPrompt then "point='<point>" + Show(x) + " " + Show(y) + "</point>'"
    else "start_box='(" + Show(x) + "," + Show(y) + ")'"
  }

  function Abs(n: int): nat { if n < 0 then -n else n }

  /** The scroll direction: vertical only when the vertical amount strictly
      dominates; otherwise horizontal. */
  function ScrollDirection(scrollX: int, scrollY: int): (d: string)
    ensures d in {"up", "down", "left", "right"}
    ensures d in {"up", "down"} <==> Abs(scrollY) > Abs(scrollX)
    ensures d == "down" ==> scrollY > 0
    ensures d == "right" ==> scrollX > 0
    ensures d == "up" ==> scrollY <= 0 && scrollY != scrollX
    ensures d == "left" ==> scrollX <= 0
  {
    if Abs(scrollY) > Abs(scrollX) then (if scrollY > 0 then "down" else "up")
    else (if scrollX > 0 then "right" else "left")
  }

  function Opposite(d: string): string {
    if d == "up" then "down"
    else if d == "down" then "up"
    else if d == "left" then "right"
    else "left"
  }

  /** Reversing a scroll whose dominant amount is non-zero reverses its direction. */
  lemma ScrollDirectionNegates(scrollX: int, scrollY: int)
    requires Abs(scrollY) > Abs(scrollX) || scrollX != 0
    ensures ScrollDirection(-scrollX, -scrollY) == Opposite(ScrollDirection(scrollX, scrollY))
  {
  }

  /** A tie is resolved horizontally: equal amounts scroll right or left,
      and no scroll at all reads as "left". */
  lemma ScrollTieIsHorizontal(v: int)
    ensures ScrollDirection(v, v) == (if v > 0 then "right" else "left")
    ensures ScrollDirection(v, -v) == (if v > 0 then "right" else "left")
    ensures ScrollDirection(0, 0) == "left"
  {
  }

  function LowerAll(keys: seq<string>): (r: seq<string>)
    ensures |r| == |keys|
    ensures forall j :: 0 <= j < |keys| ==> r[j] == Lower(keys[j])
  {
    if keys == [] then [] else [Lower(keys[0])] + LowerAll(keys[1..])
  }

  /** Lower-casing a space-joined list lower-cases each element. */
  lemma {:induction false} LowerJoin(keys: seq<string>)
    ensures Lower(Join(" ", keys)) == Join(" ", LowerAll(keys))
    decreases |keys|
  {
    if |keys| > 1 {
      LowerJoin(keys[1..]);
      assert LowerAll(keys)[1..] == LowerAll(keys[1..]);
      LowerAppend(keys[0] + " ", Join(" ", keys[1..]));
      LowerAppend(keys[0], " ");
    }
  }

  /** The character cap the encoder puts on a hotkey's key string. */
  const MaxKeyChars := 30

  predicate NoUpper(s: string) {
    forall i :: 0 <= i < |s| ==> !('A' <= s[i] <= 'Z')
  }

  /** The hotkey key string: the keys lower-cased, joined by single spaces and
      cut to its first 30 characters (a cap on characters, not on keys). */
  function KeysText(keys: seq<string>): (r: string)
    ensures |r| <= MaxKeyChars
    ensures StartsWith(Join(" ", LowerAll(keys)), r)
    ensures |Join(" ", LowerAll(keys))| <= MaxKeyChars ==> r == Join(" ", LowerAll(keys))
    ensures |Join(" ", LowerAll(keys))| > MaxKeyChars ==> |r| == MaxKeyChars
    ensures NoUpper(r)
  {
    var full := Join(" ", LowerAll(keys));
    JoinOfLowerHasNoUpper(keys);
    if |full| <= MaxKeyChars then full else full[..MaxKeyChars]
  }

  lemma {:induction false} JoinOfLowerHasNoUpper(keys: seq<string>)
    ensures NoUpper(Join(" ", LowerAll(keys)))
    decreases |keys|
  {
    if |keys| > 1 {
      JoinOfLowerHasNoUpper(keys[1..]);
      assert LowerAll(keys)[1..] == LowerAll(keys[1..]);
    }
  }

  // ---------------------------------------------------------------------------
  // The structured dialects

  /** The action kinds the encoder knows by name. */
  const KnownKinds: set<string> :=
    {"click", "move", "scroll", "keypress", "type", "wait", "screenshot", "drag", "finished"}

  function EncodeClick(args: Value, followPrompt: bool): (r: Result<string>)
    ensures r.Ok? ==> r.value != [] && r.value[0] != '#'
    ensures args.Obj? && Get(args.fields, "x").None? ==> r == Err(KeyError("x"))
  {
    var x :- Subscript(args, "x");
    var y :- Subscript(args, "y");
    var button :- Subscript(args, "button");
    Ok(ClickVerb(button) + "(" + PointArg(x, y, followPrompt) + ")")
  }

  function EncodeMove(args: Value, followPrompt: bool): (r: Result<string>)
    ensures r.Ok? ==> r.value != [] && r.value[0] != '#'
    ensures args.Obj? && Get(args.fields, "x").None? ==> r == Err(KeyError("x"))
  {
    var x :- Subscript(args, "x");
    var y :- Subscript(args, "y");
    Ok("click(" + PointArg(x, y, followPrompt) + ")")
  }

  function EncodeScroll(args: Value, followPrompt: bool): (r: Result<string>)
    ensures r.Ok? ==> r.value != [] && r.value[0] != '#'
    ensures args.Obj? && Get(args.fields, "x").None? ==> r == Err(KeyError("x"))
  {
    var x :- Subscript(args, "x");
    var y :- Subscript(args, "y");
    var sx :- Subscript(args, "scroll_x");
    var sy :- Subscript(args, "scroll_y");
    if !sx.Int? || !sy.Int? then Err(TypeError)
    else
      var d := ScrollDirection(sx.i, sy.i);
      if followPrompt then
        Ok("scroll(point='<point>" + Show(x) + " " + Show(y) + "</point>', direction='" + d + "')")
      else
        Ok("scroll(direction='" + d + "', start_box='(" + Show(x) + "," + Show(y) + ")')")
  }

  function EncodeKeypress(args: Value): (r: Result<string>)
    ensures r.Ok? ==> r.value != [] && r.value[0] != '#'
  {
    var keys :- Subscript(args, "keys");
    var names :- KeyNames(keys);
    Ok("hotkey(key='" + KeysText(names) + "')")
  }

  /** `verb(content='<escaped text>')`; the text must be a string. */
  function EncodeContent(verb: string, text: Value): (r: Result<string>)
    ensures r.Ok? ==> |r.value| > |verb| && forall k :: 0 <= k < |verb| ==> r.value[k] == verb[k]
    ensures r.Err? <==> !text.Str?
  {
    if !text.Str? then Err(AttributeError("replace"))
    else Ok(verb + "(content='" + Escaping.EscapeText(text.s) + "')")
  }

  function EncodeDrag(args: Value): (r: Result<string>)
    ensures r.Ok? ==> r.value != [] && r.value[0] != '#'
  {
    var path :- Subscript(args, "path");
    var p0 :- Index(path, 0);
    var sx :- Subscript(p0, "x");
    var sy :- Subscript(p0, "y");
    var p1 :- Index(path, 1);
    var ex :- Subscript(p1, "x");
    var ey :- Subscript(p1, "y");
    Ok("drag(start_point='<point>" + Show(sx) + " " + Show(sy) + "</point>', end_point='<point>"
       + Show(ex) + " " + Show(ey) + "</point>')")
  }

  /** The shared body of map_oai_action and map_processed_oai_action: encodes
      action kind `kind` whose fields are read from `args`; `echo` is the text
      of the whole record, shown for an unknown kind. */
  function Encode(kind: Value, args: Value, followPrompt: bool, echo: string): (r: Result<string>)
    ensures !(kind.Str? && kind.s in KnownKinds) ==>
              r.Ok? && StartsWith(r.value, "# Unknown action: ") && EndsWith(r.value, echo)
    ensures kind.Str? && kind.s in KnownKinds && r.Ok? ==> r.value == [] || r.value[0] != '#'
    ensures r.Err? ==> kind.Str? && kind.s in KnownKinds - {"wait", "screenshot"}
    ensures kind == Str("wait") ==> r == Ok("wait()")
    ensures kind == Str("screenshot") ==> r == Ok("")
    ensures kind.Str? && kind.s in {"click", "move", "scroll"} && args.Obj? && Get(args.fields, "x").None?
            ==> r == Err(KeyError("x"))
  {
    if kind == Str("click") then EncodeClick(args, followPrompt)
    else if kind == Str("move") then EncodeMove(args, followPrompt)
    else if kind == Str("scroll") then EncodeScroll(args, followPrompt)
    else if kind == Str("keypress") then EncodeKeypress(args)
    else if kind == Str("type") then
      var text :- Subscript(args, "text");
      EncodeContent("type", text)
    else if kind == Str("wait") then Ok("wait()")
    else if kind == Str("screenshot") then Ok("")
    else if kind == Str("drag") then EncodeDrag(args)
    else if kind == Str("finished") then
      var content :- Subscript(args, "content");
      EncodeContent("finished", content)
    else
      var head := "# Unknown action: ";
      PrefixAppend(head, Show(kind));
      StartsWithAppend(head + Show(kind), head, " ");
      StartsWithAppend(head + Show(kind) + " ", head, echo);
      EndsWithAppend(head + Show(kind) + " ", echo);
      Ok(head + Show(kind) + " " + echo)
  }

  /** map_oai_action: the raw action record, its kind under "type". */
  function MapOai(action: Dict, followPrompt: bool): (r: Result<string>)
    ensures Get(action, "type").None? ==> r == Err(KeyError("type"))
    ensures Get(action, "type").Some? ==>
              r == Encode(Get(action, "type").value, Obj(action), followPrompt, Show(Obj(action)))
    ensures Get(action, "type").Some? && !(Get(action, "type").value.Str? && Get(action, "type").value.s in KnownKinds)
            ==> r.Ok? && StartsWith(r.value, "# Unknown action: ") && EndsWith(r.value, Show(Obj(action)))
  {
    var kind :- Subscript(Obj(action), "type");
    Encode(kind, Obj(action), followPrompt, Show(Obj(action)))
  }

  /** The logged form of an action record: its kind, and its other fields
      under "args" (the JSON text of the source is kept as the decoded value). */
  function ProcessedRecord(kind: Value, rest: Dict): Dict {
    [("action", kind), ("args", Obj(rest))]
  }

  /** map_processed_oai_action: the logged `{action, args}` form. */
  function MapProcessed(action: Dict, followPrompt: bool): (r: Result<string>)
    ensures Get(action, "action").None? ==> r == Err(KeyError("action"))
    ensures Get(action, "action").Some? && Get(action, "args").None? ==> r == Err(KeyError("args"))
    ensures Get(action, "action").Some? && Get(action, "args").Some? ==>
              r == Encode(Get(action, "action").value, Get(action, "args").value, followPrompt, Show(Obj(action)))
  {
    var kind :- Subscript(Obj(action), "action");
    var args :- Subscript(Obj(action), "args");
    Encode(kind, args, followPrompt, Show(Obj(action)))
  }

  // ---------------------------------------------------------------------------
  // Properties of the structured encoder

  /** Logging an action record and encoding the log entry gives the same
      string as encoding the record itself, for every kind the encoder knows. */
  lemma ProcessedAgreesWithRaw(action: Dict, kind: string, followPrompt: bool)
    requires Get(action, "type") == Some(Str(kind))
    requires kind in KnownKinds
    ensures MapProcessed(ProcessedRecord(Str(kind), Without(action, "type")), followPrompt)
         == MapOai(action, followPrompt)
  {
    var rest := Without(action, "type");
    var logged := ProcessedRecord(Str(kind), rest);
    GetCons(("action", Str(kind)), [("args", Obj(rest))], "action");
    GetCons(("action", Str(kind)), [("args", Obj(rest))], "args");
    GetCons(("args", Obj(rest)), [], "args");
    assert Subscript(Obj(logged), "action") == Ok(Str(kind));
    assert Subscript(Obj(logged), "args") == Ok(Obj(rest));
    assert Subscript(Obj(action), "type") == Ok(Str(kind));
    SameFieldsSameEncoding(kind, Obj(rest), Obj(action), followPrompt,
                           Show(Obj(logged)), Show(Obj(action)));
  }

  /** Two argument records that agree on every field but "type" encode alike. */
  lemma SameFieldsSameEncoding(kind: string, a: Value, b: Value, followPrompt: bool, e1: string, e2: string)
    requires kind in KnownKinds
    requires a.Obj? && b.Obj?
    requires forall k :: k != "type" ==> Get(a.fields, k) == Get(b.fields, k)
    ensures Encode(Str(kind), a, followPrompt, e1) == Encode(Str(kind), b, followPrompt, e2)
  {
    FieldsAgree(a, b);
    if kind in {"click", "move", "scroll"} {
      SamePointerEncoding(kind, a, b, followPrompt, e1, e2);
    } else {
      SameOtherEncoding(kind, a, b, followPrompt, e1, e2);
    }
  }

  lemma FieldsAgree(a: Value, b: Value)
    requires a.Obj? && b.Obj?
    requires forall k :: k != "type" ==> Get(a.fields, k) == Get(b.fields, k)
    ensures Subscript(a, "x") == Subscript(b, "x") && Subscript(a, "y") == Subscript(b, "y")
    ensures Subscript(a, "button") == Subscript(b, "button")
    ensures Subscript(a, "scroll_x") == Subscript(b, "scroll_x") && Subscript(a, "scroll_y") == Subscript(b, "scroll_y")
    ensures Subscript(a, "keys") == Subscript(b, "keys") && Subscript(a, "text") == Subscript(b, "text")
    ensures Subscript(a, "path") == Subscript(b, "path") && Subscript(a, "content") == Subscript(b, "content")
  {
    SubscriptAgrees(a, b, "x");
    SubscriptAgrees(a, b, "y");
    SubscriptAgrees(a, b, "button");
    SubscriptAgrees(a, b, "scroll_x");
    SubscriptAgrees(a, b, "scroll_y");
    SubscriptAgrees(a, b, "keys");
    SubscriptAgrees(a, b, "text");
    SubscriptAgrees(a, b, "path");
    SubscriptAgrees(a, b, "content");
  }

  lemma SubscriptAgrees(a: Value, b: Value, k: string)
    requires a.Obj? && b.Obj? && k != "type"
    requires forall k :: k != "type" ==> Get(a.fields, k) == Get(b.fields, k)
    ensures Subscript(a, k) == Subscript(b, k)
  {
    assert Get(a.fields, k) == Get(b.fields, k);
  }

  lemma SamePointerEncoding(kind: string, a: Value, b: Value, followPrompt: bool, e1: string, e2: string)
    requires kind in {"click", "move", "scroll"}
    requires Subscript(a, "x") == Subscript(b, "x") && Subscript(a, "y") == Subscript(b, "y")
    requires Subscript(a, "button") == Subscript(b, "button")
    requires Subscript(a, "scroll_x") == Subscript(b, "scroll_x") && Subscript(a, "scroll_y") == Subscript(b, "scroll_y")
    ensures Encode(Str(kind), a, followPrompt, e1) == Encode(Str(kind), b, followPrompt, e2)
  {
    if kind == "click" {
      SameClick(a, b, followPrompt);
    } else if kind == "move" {
      SameMove(a, b, followPrompt);
    } else {
      SameScroll(a, b, followPrompt);
    }
  }

  lemma SameOtherEncoding(kind: string, a: Value, b: Value, followPrompt: bool, e1: string, e2: string)
    requires kind in KnownKinds && kind !in {"click", "move", "scroll"}
    requires Subscript(a, "keys") == Subscript(b, "keys") && Subscript(a, "text") == Subscript(b, "text")
    requires Subscript(a, "path") == Subscript(b, "path") && Subscript(a, "content") == Subscript(b, "content")
    ensures Encode(Str(kind), a, followPrompt, e1) == Encode(Str(kind), b, followPrompt, e2)
  {
    if kind == "keypress" {
      SameKeypress(a, b);
      EncodeAt("keypress", a, followPrompt, e1);
      EncodeAt("keypress", b, followPrompt, e2);
    } else if kind == "drag" {
      SamePathSameDrag(a, b);
      EncodeAt("drag", a, followPrompt, e1);
      EncodeAt("drag", b, followPrompt, e2);
    } else {
      EncodeAt(kind, a, followPrompt, e1);
      EncodeAt(kind, b, followPrompt, e2);
    }
  }

  /** Encode on each kind other than the pointer ones. */
  lemma EncodeAt(kind: string, a: Value, followPrompt: bool, e: string)
    requires kind in KnownKinds && kind !in {"click", "move", "scroll"}
    ensures Encode(Str(kind), a, followPrompt, e) ==
            match kind
            case "keypress" => EncodeKeypress(a)
            case "type" => (var t :- Subscript(a, "text"); EncodeContent("type", t))
            case "wait" => Ok("wait()")
            case "screenshot" => Ok("")
            case "drag" => EncodeDrag(a)
            case _ => (var c :- Subscript(a, "content"); EncodeContent("finished", c))
  {
  }

  lemma SameClick(a: Value, b: Value, followPrompt: bool)
    requires Subscript(a, "x") == Subscript(b, "x") && Subscript(a, "y") == Subscript(b, "y")
    requires Subscript(a, "button") == Subscript(b, "button")
    ensures EncodeClick(a, followPrompt) == EncodeClick(b, followPrompt)
  {
  }

  lemma SameMove(a: Value, b: Value, followPrompt: bool)
    requires Subscript(a, "x") == Subscript(b, "x") && Subscript(a, "y") == Subscript(b, "y")
    ensures EncodeMove(a, followPrompt) == EncodeMove(b, followPrompt)
  {
  }

  lemma SameScroll(a: Value, b: Value, followPrompt: bool)
    requires Subscript(a, "x") == Subscript(b, "x") && Subscript(a, "y") == Subscript(b, "y")
    requires Subscript(a, "scroll_x") == Subscript(b, "scroll_x") && Subscript(a, "scroll_y") == Subscript(b, "scroll_y")
    ensures EncodeScroll(a, followPrompt) == EncodeScroll(b, followPrompt)
  {
  }

  lemma SameKeypress(a: Value, b: Value)
    requires Subscript(a, "keys") == Subscript(b, "keys")
    ensures EncodeKeypress(a) == EncodeKeypress(b)
  {
  }


  /** MapOai dispatches on the record's "type" field. */
  lemma MapOaiDispatch(action: Dict, kind: string, followPrompt: bool)
    requires Get(action, "type") == Some(Str(kind))
    ensures MapOai(action, followPrompt) == Encode(Str(kind), Obj(action), followPrompt, Show(Obj(action)))
  {
  }

  lemma GetTwo(p: (string, Value), q: (string, Value), rest: Dict, k: string)
    ensures Get([p, q] + rest, k) == if p.0 == k then Some(p.1) else if q.0 == k then Some(q.1) else Get(rest, k)
  {
    assert [p, q] + rest == [p] + ([q] + rest);
    GetCons(p, [q] + rest, k);
    GetCons(q, rest, k);
  }

  lemma ClickFields(x: Value, y: Value, button: Value, rest: Dict)
    ensures var d := [("type", Str("click")), ("x", x), ("y", y), ("button", button)] + rest;
            Get(d, "type") == Some(Str("click")) && Get(d, "x") == Some(x) &&
            Get(d, "y") == Some(y) && Get(d, "button") == Some(button)
  {
    var d := [("type", Str("click")), ("x", x), ("y", y), ("button", button)] + rest;
    var d2 := [("y", y), ("button", button)] + rest;
    assert d == [("type", Str("click")), ("x", x)] + d2;
    GetTwo(("type", Str("click")), ("x", x), d2, "type");
    GetTwo(("type", Str("click")), ("x", x), d2, "x");
    GetTwo(("type", Str("click")), ("x", x), d2, "y");
    GetTwo(("type", Str("click")), ("x", x), d2, "button");
    GetTwo(("y", y), ("button", button), rest, "y");
    GetTwo(("y", y), ("button", button), rest, "button");
  }

  lemma ClickOfFields(d: Dict, x: Value, y: Value, button: Value, followPrompt: bool)
    requires Get(d, "x") == Some(x) && Get(d, "y") == Some(y) && Get(d, "button") == Some(button)
    ensures EncodeClick(Obj(d), followPrompt) == Ok(ClickVerb(button) + "(" + PointArg(x, y, followPrompt) + ")")
  {
  }

  /** The click encoding: the verb the button selects, around the point in the
      form `follow_prompt` selects. */
  lemma ClickEncoding(x: Value, y: Value, button: Value, rest: Dict, followPrompt: bool)
    ensures MapOai([("type", Str("click")), ("x", x), ("y", y), ("button", button)] + rest, followPrompt)
         == Ok((if button == Str("right") then "right_single"
                else if button == Str("double") then "left_double"
                else "click") + "(" + PointArg(x, y, followPrompt) + ")")
  {
    var d := [("type", Str("click")), ("x", x), ("y", y), ("button", button)] + rest;
    ClickFields(x, y, button, rest);
    MapOaiDispatch(d, "click", followPrompt);
    ClickOfFields(d, x, y, button, followPrompt);
  }

  /** A pointer move is encoded exactly as a left click at the same point,
      whatever other fields the record holds. */
  lemma MoveIsLeftClick(rest: Dict, followPrompt: bool)
    ensures MapOai([("type", Str("move"))] + rest, followPrompt)
         == MapOai([("type", Str("click")), ("button", Str("left"))] + rest, followPrompt)
  {
    var m := [("type", Str("move"))] + rest;
    var c := [("type", Str("click")), ("button", Str("left"))] + rest;
    GetCons(("type", Str("move")), rest, "type");
    GetCons(("type", Str("move")), rest, "x");
    GetCons(("type", Str("move")), rest, "y");
    GetTwo(("type", Str("click")), ("button", Str("left")), rest, "type");
    GetTwo(("type", Str("click")), ("button", Str("left")), rest, "button");
    GetTwo(("type", Str("click")), ("button", Str("left")), rest, "x");
    GetTwo(("type", Str("click")), ("button", Str("left")), rest, "y");
    MapOaiDispatch(m, "move", followPrompt);
    MapOaiDispatch(c, "click", followPrompt);
    SameMoveAndClick(Obj(m), Obj(c), followPrompt);
  }

  lemma SameMoveAndClick(m: Value, c: Value, followPrompt: bool)
    requires m.Obj? && c.Obj?
    requires Get(m.fields, "x") == Get(c.fields, "x") && Get(m.fields, "y") == Get(c.fields, "y")
    requires Get(c.fields, "button") == Some(Str("left"))
    ensures EncodeMove(m, followPrompt) == EncodeClick(c, followPrompt)
  {
    assert ClickVerb(Str("left")) + "(" == "click(";
  }

  /** Only the first two points of a drag path are encoded; later points are
      ignored, and a path of fewer than two points raises an IndexError. */
  lemma DragUsesFirstTwoPoints(p0: Dict, p1: Dict, tail: seq<Value>)
    ensures EncodeDrag(Obj([("path", List([Obj(p0), Obj(p1)] + tail))]))
         == EncodeDrag(Obj([("path", List([Obj(p0), Obj(p1)]))]))
    ensures Get(p0, "x").Some? && Get(p0, "y").Some? ==>
              EncodeDrag(Obj([("path", List([Obj(p0)]))])) == Err(IndexError)
    ensures EncodeDrag(Obj([("path", List([]))])) == Err(IndexError)
  {
    var long, short := List([Obj(p0), Obj(p1)] + tail), List([Obj(p0), Obj(p1)]);
    var one, none := List([Obj(p0)]), List([]);
    assert Subscript(Obj([("path", long)]), "path") == Ok(long);
    assert Subscript(Obj([("path", short)]), "path") == Ok(short);
    assert Subscript(Obj([("path", one)]), "path") == Ok(one);
    assert Subscript(Obj([("path", none)]), "path") == Ok(none);
    assert Index(long, 0) == Index(short, 0) == Index(one, 0) == Ok(Obj(p0));
    assert Index(long, 1) == Index(short, 1) == Ok(Obj(p1));
  }

  /** A drag record is encoded by EncodeDrag on the record itself. */
  lemma DragRecord(path: Value, rest: Dict, followPrompt: bool)
    ensures MapOai([("type", Str("drag")), ("path", path)] + rest, followPrompt)
         == EncodeDrag(Obj([("path", path)]))
  {
    var d := [("type", Str("drag")), ("path", path)] + rest;
    GetTwo(("type", Str("drag")), ("path", path), rest, "type");
    GetTwo(("type", Str("drag")), ("path", path), rest, "path");
    GetCons(("path", path), [], "path");
    MapOaiDispatch(d, "drag", followPrompt);
    SamePathSameDrag(Obj(d), Obj([("path", path)]));
  }

  lemma SamePathSameDrag(a: Value, b: Value)
    requires Subscript(a, "path") == Subscript(b, "path")
    ensures EncodeDrag(a) == EncodeDrag(b)
  {
  }

  /** The fixed outputs: a screenshot is the empty action and a wait is
      `wait()`, whatever other fields the record holds. */
  lemma FixedOutputs(rest: Dict, followPrompt: bool)
    ensures MapOai([("type", Str("screenshot"))] + rest, followPrompt) == Ok("")
    ensures MapOai([("type", Str("wait"))] + rest, followPrompt) == Ok("wait()")
  {
    GetCons(("type", Str("screenshot")), rest, "type");
    MapOaiDispatch([("type", Str("screenshot"))] + rest, "screenshot", followPrompt);
    GetCons(("type", Str("wait")), rest, "type");
    MapOaiDispatch([("type", Str("wait"))] + rest, "wait", followPrompt);
  }

  /** A kind the encoder does not know, "double_click" included, becomes a
      comment line naming the kind rather than an error. */
  lemma UnknownKindIsComment(rest: Dict, followPrompt: bool, kind: string)
    requires kind !in KnownKinds
    ensures var r := MapOai([("type", Str(kind))] + rest, followPrompt);
            r.Ok? && StartsWith(r.value, "# Unknown action: " + kind + " ")
    ensures "double_click" !in KnownKinds
  {
    var d := [("type", Str(kind))] + rest;
    GetCons(("type", Str(kind)), rest, "type");
    MapOaiDispatch(d, kind, followPrompt);
    var p := "# Unknown action: " + kind + " ";
    UnknownEncode(Str(kind), Obj(d), followPrompt, Show(Obj(d)));
    var r := MapOai(d, followPrompt);
    assert r == Ok(p + Show(Obj(d)));
    assert r.value[..|p|] == p;
  }

  lemma UnknownEncode(kind: Value, args: Value, followPrompt: bool, echo: string)
    requires kind.Str? && kind.s !in KnownKinds
    ensures Encode(kind, args, followPrompt, echo) == Ok("# Unknown action: " + kind.s + " " + echo)
  {
  }

  /** The content of a `type` or `finished` action reads back, as a Python
      literal, as exactly the given text, and the literal closes right before
      the final `)`: for text without carriage returns and NULs, which the
      escaping leaves raw. */
  lemma ContentReadsBack(verb: string, text: string)
    requires '\r' !in text && '\0' !in text
    ensures var r := EncodeContent(verb, Str(text));
            r.Ok? && StartsWith(r.value, verb + "(content='") &&
            Escaping.ReadQuoted(r.value[|verb + "(content='"|..]) == Some((text, ")"))
  {
    var p := verb + "(content='";
    var e := Escaping.EscapeText(text);
    var r := EncodeContent(verb, Str(text));
    assert r.value == p + (e + "'" + ")");
    assert r.value[|p|..] == e + "'" + ")";
    assert r.value[..|p|] == p;
    Escaping.EscapeRoundTrip(text, ")");
  }

  /** A `type` record is encoded from its text, whatever other fields it holds. */
  lemma TypeRecord(text: string, rest: Dict, followPrompt: bool)
    ensures MapOai([("type", Str("type")), ("text", Str(text))] + rest, followPrompt)
         == EncodeContent("type", Str(text))
  {
    var t := [("type", Str("type")), ("text", Str(text))] + rest;
    GetTwo(("type", Str("type")), ("text", Str(text)), rest, "type");
    GetTwo(("type", Str("type")), ("text", Str(text)), rest, "text");
    MapOaiDispatch(t, "type", followPrompt);
    ContentEncode("type", "text", Obj(t), Str(text), followPrompt, Show(Obj(t)));
  }

  /** A `finished` record is encoded from its content, whatever other fields it holds. */
  lemma FinishedRecord(text: string, rest: Dict, followPrompt: bool)
    ensures MapOai([("type", Str("finished")), ("content", Str(text))] + rest, followPrompt)
         == EncodeContent("finished", Str(text))
  {
    var c := [("type", Str("finished")), ("content", Str(text))] + rest;
    GetTwo(("type", Str("finished")), ("content", Str(text)), rest, "type");
    GetTwo(("type", Str("finished")), ("content", Str(text)), rest, "content");
    MapOaiDispatch(c, "finished", followPrompt);
    ContentEncode("finished", "content", Obj(c), Str(text), followPrompt, Show(Obj(c)));
  }

  lemma ContentEncode(kind: string, field: string, args: Value, v: Value, followPrompt: bool, echo: string)
    requires (kind, field) == ("type", "text") || (kind, field) == ("finished", "content")
    requires Subscript(args, field) == Ok(v)
    ensures Encode(Str(kind), args, followPrompt, echo) == EncodeContent(kind, v)
  {
  }

  /** The hotkey action carries the capped, lower-cased key string. */
  lemma KeypressEncoding(keys: seq<string>, rest: Dict, followPrompt: bool)
    ensures MapOai([("type", Str("keypress")), ("keys", List(seq(|keys|, j requires 0 <= j < |keys| => Str(keys[j]))))] + rest, followPrompt)
         == Ok("hotkey(key='" + KeysText(keys) + "')")
  {
    var v := List(seq(|keys|, j requires 0 <= j < |keys| => Str(keys[j])));
    var d := [("type", Str("keypress")), ("keys", v)] + rest;
    GetTwo(("type", Str("keypress")), ("keys", v), rest, "type");
    GetTwo(("type", Str("keypress")), ("keys", v), rest, "keys");
    MapOaiDispatch(d, "keypress", followPrompt);
    assert KeyNames(v).value == keys;
    KeypressOfKeys(Obj(d), v, keys);
  }

  lemma KeypressOfKeys(d: Value, v: Value, keys: seq<string>)
    requires Subscript(d, "keys") == Ok(v) && KeyNames(v) == Ok(keys)
    ensures EncodeKeypress(d) == Ok("hotkey(key='" + KeysText(keys) + "')")
  {
  }

  // ---------------------------------------------------------------------------
  // The legacy proportional dialect (map_aguvis_action)

  function Pow10(n: nat): (r: nat)
    ensures r >= 1
  {
    if n == 0 then 1 else 10 * Pow10(n - 1)
  }

  predicate IsNumChar(c: char) { IsDigit(c) || c == '.' }

  function CountChar(s: string, c: char): nat {
    if s == [] then 0 else (if s[0] == c then 1 else 0) + CountChar(s[1..], c)
  }

  /** Python's float() on a run of digits and dots: at most one dot and at
      least one digit, else a ValueError. */
  function DecimalValue(g: string): (r: Result<real>)
    requires forall i :: 0 <= i < |g| ==> IsNumChar(g[i])
    ensures r.Ok? ==> r.value >= 0.0
    ensures r.Err? ==> r.error == ValueError
  {
    var e := RunEnd(g, 0, IsDigit);
    var whole := g[..e];
    if e == |g| then
      (if e == 0 then Err(ValueError) else Ok(DigitsValue(whole) as real))
    else
      var frac := g[e + 1..];
      if CountChar(frac, '.') != 0 || (e == 0 && frac == []) then Err(ValueError)
      else
        assert forall i :: 0 <= i < |frac| ==> IsDigit(frac[i]) by {
          forall i | 0 <= i < |frac| ensures IsDigit(frac[i]) {
            assert IsNumChar(g[e + 1 + i]);
            NoDotAt(frac, i);
          }
        }
        Ok(DigitsValue(whole) as real + DigitsValue(frac) as real / Pow10(|frac|) as real)
  }

  lemma {:induction false} NoDotAt(s: string, i: nat)
    requires i < |s| && CountChar(s, '.') == 0
    ensures s[i] != '.'
    decreases i
  {
    if i > 0 { NoDotAt(s[1..], i - 1); }
  }

  /** Python's round() on a number: to the nearest integer, halves to even. */
  function RoundHalfEven(r: real): (n: int)
    ensures r - 0.5 <= n as real <= r + 0.5
  {
    var f := r.Floor;
    var diff := r - f as real;
    if diff < 0.5 then f
    else if diff > 0.5 then f + 1
    else if f % 2 == 0 then f
    else f + 1
  }

  /** Rounding never reverses the order of two numbers. */
  lemma RoundHalfEvenMonotonic(a: real, b: real)
    requires a <= b
    ensures RoundHalfEven(a) <= RoundHalfEven(b)
  {
    var fa, fb := a.Floor, b.Floor;
    if fa < fb {
      assert RoundHalfEven(a) <= fa + 1 <= fb <= RoundHalfEven(b);
    }
  }

  /** The pixel a proportional coordinate lands on: the fraction times the
      extent, rounded half to even (no clamping). */
  function ScaleToPixels(fraction: real, extent: int): int {
    RoundHalfEven(fraction * extent as real)
  }

  /** A pixel position between 0 and the extent rounds to a pixel in
      [0, extent], order preserved. */
  lemma RoundBetween(a: real, b: real, n: nat)
    requires 0.0 <= a <= b <= n as real
    ensures 0 <= RoundHalfEven(a) <= RoundHalfEven(b) <= n
  {
    RoundHalfEvenMonotonic(0.0, a);
    RoundHalfEvenMonotonic(a, b);
    RoundHalfEvenMonotonic(b, n as real);
    RoundWhole(0);
    RoundWhole(n);
  }

  lemma RoundWhole(n: int)
    ensures RoundHalfEven(n as real) == n
  {
    assert (n as real).Floor == n;
  }

  /** A legacy click `pyautogui.click(x=<fx>, y=<fy>)` lands on the pixel
      (round(fx * width), round(fy * height)). */
  lemma AguvisClick(gx: string, gy: string, fx: real, fy: real, windowHeight: int, windowWidth: int)
    requires gx != [] && forall k :: 0 <= k < |gx| ==> IsNumChar(gx[k])
    requires gy != [] && forall k :: 0 <= k < |gy| ==> IsNumChar(gy[k])
    requires DecimalValue(gx) == Ok(fx) && DecimalValue(gy) == Ok(fy)
    ensures MapAguvis("pyautogui.click(x=" + gx + ", y=" + gy + ")", windowHeight, windowWidth)
         == Ok(Some("click(start_box='(" + IntToString(ScaleToPixels(fx, windowWidth)) + ","
                    + IntToString(ScaleToPixels(fy, windowHeight)) + ")')"))
  {
    ClickLayout(gx, gy);
    ClickOfMatch("pyautogui.click(x=" + gx + ", y=" + gy + ")", gx, gy, fx, fy, windowHeight, windowWidth);
  }

  lemma ClickLayout(gx: string, gy: string)
    requires gx != [] && forall k :: 0 <= k < |gx| ==> IsNumChar(gx[k])
    requires gy != [] && forall k :: 0 <= k < |gy| ==> IsNumChar(gy[k])
    ensures var a := "pyautogui.click(x=" + gx + ", y=" + gy + ")";
            StartsWith(a, "pyautogui.click") && a[|a| - 1] == ')' &&
            MatchXY(a, "pyautogui.click(x=") == Some((gx, gy, |a| - 1))
  {
    var prefix := "pyautogui.click(x=";
    MatchXYParts(prefix, gx, gy, ")");
    assert StartsWith(prefix, "pyautogui.click");
    StartsWithAppend(prefix, "pyautogui.click", gx);
    StartsWithAppend(prefix + gx, "pyautogui.click", ", y=");
    StartsWithAppend(prefix + gx + ", y=", "pyautogui.click", gy);
    StartsWithAppend(prefix + gx + ", y=" + gy, "pyautogui.click", ")");
  }

  lemma ClickOfMatch(a: string, gx: string, gy: string, fx: real, fy: real, h: int, w: int)
    requires StartsWith(a, "pyautogui.click")
    requires MatchXY(a, "pyautogui.click(x=") == Some((gx, gy, |a| - 1)) && a[|a| - 1] == ')'
    requires DecimalValue(gx) == Ok(fx) && DecimalValue(gy) == Ok(fy)
    ensures MapAguvis(a, h, w) == Ok(Some("click(start_box='(" + IntToString(ScaleToPixels(fx, w)) + ","
                                         + IntToString(ScaleToPixels(fy, h)) + ")')"))
  {
    assert MapAguvis(a, h, w) == AguvisClickCall(a, h, w);
  }

  /** The x/y pattern matches a prefix, two number runs separated by ", y=",
      and stops where the second run does. */
  lemma MatchXYParts(prefix: string, gx: string, gy: string, rest: string)
    requires gx != [] && forall k :: 0 <= k < |gx| ==> IsNumChar(gx[k])
    requires gy != [] && forall k :: 0 <= k < |gy| ==> IsNumChar(gy[k])
    requires rest != [] && !IsNumChar(rest[0])
    ensures MatchXY(prefix + gx + ", y=" + gy + rest, prefix) == Some((gx, gy, |prefix| + |gx| + 4 + |gy|))
  {
    XYLayout(prefix, gx, gy, rest);
    MatchXYAt(prefix + gx + ", y=" + gy + rest, prefix, gx, gy);
  }

  /** Where the parts of an x/y call sit in its text. */
  lemma XYLayout(prefix: string, gx: string, gy: string, rest: string)
    requires gx != [] && forall k :: 0 <= k < |gx| ==> IsNumChar(gx[k])
    requires gy != [] && forall k :: 0 <= k < |gy| ==> IsNumChar(gy[k])
    requires rest != [] && !IsNumChar(rest[0])
    ensures var a := prefix + gx + ", y=" + gy + rest;
            var e1 := |prefix| + |gx|;
            var e2 := e1 + 4 + |gy|;
            && e2 < |a|
            && a[..|prefix|] == prefix && a[|prefix|..e1] == gx
            && a[e1..e1 + 4] == ", y=" && a[e1 + 4..e2] == gy
            && !IsNumChar(a[e2])
  {
    var a := prefix + gx + ", y=" + gy + rest;
    var p := |prefix|;
    var e1 := p + |gx|;
    var e2 := e1 + 4 + |gy|;
    var A := prefix + gx;
    var B := A + ", y=";
    var C := B + gy;
    assert a == C + rest;
    assert a[..e2] == C && C[..e1 + 4] == B && B[..e1] == A;
    assert a[..p] == A[..p] == prefix;
    assert a[p..e1] == A[p..] == gx;
    assert a[e1..e1 + 4] == B[e1..] == ", y=";
    assert a[e1 + 4..e2] == C[e1 + 4..] == gy;
    assert a[e2] == rest[0];
  }

  lemma MatchXYAt(a: string, prefix: string, gx: string, gy: string)
    requires gx != [] && forall k :: 0 <= k < |gx| ==> IsNumChar(gx[k])
    requires gy != [] && forall k :: 0 <= k < |gy| ==> IsNumChar(gy[k])
    requires |prefix| + |gx| + 4 + |gy| < |a|
    requires a[..|prefix|] == prefix && a[|prefix|..|prefix| + |gx|] == gx
    requires a[|prefix| + |gx|..|prefix| + |gx| + 4] == ", y="
    requires a[|prefix| + |gx| + 4..|prefix| + |gx| + 4 + |gy|] == gy
    requires !IsNumChar(a[|prefix| + |gx| + 4 + |gy|])
    ensures MatchXY(a, prefix) == Some((gx, gy, |prefix| + |gx| + 4 + |gy|))
  {
    MatchXAt(a, |prefix|, gx, gy);
    assert StartsWith(a, prefix);
  }

  lemma MatchXAt(a: string, p: nat, gx: string, gy: string)
    requires gx != [] && forall k :: 0 <= k < |gx| ==> IsNumChar(gx[k])
    requires gy != [] && forall k :: 0 <= k < |gy| ==> IsNumChar(gy[k])
    requires p + |gx| + 4 + |gy| < |a|
    requires a[p..p + |gx|] == gx && a[p + |gx|..p + |gx| + 4] == ", y="
    requires a[p + |gx| + 4..p + |gx| + 4 + |gy|] == gy
    requires !IsNumChar(a[p + |gx| + 4 + |gy|])
    ensures MatchXFrom(a, p) == Some((gx, gy, p + |gx| + 4 + |gy|))
  {
    var e1 := p + |gx|;
    assert a[e1] == ',' && a[e1 + 1] == ' ' && a[e1 + 2..e1 + 4] == "y=" by {
      assert a[e1..e1 + 4][0] == a[e1] && a[e1..e1 + 4][1] == a[e1 + 1];
      assert a[e1..e1 + 4][2..] == a[e1 + 2..e1 + 4];
    }
    RunOver(a, p, gx, IsNumChar);
    assert RunEnd(a, p, IsNumChar) == e1;
    MatchYAt(a, p, e1, gy);
    assert MatchYFrom(a, p, e1) == Some((gx, gy, e1 + 4 + |gy|));
  }

  lemma MatchYAt(a: string, p: nat, e1: nat, gy: string)
    requires p < e1 && e1 + 4 + |gy| < |a|
    requires forall k :: p <= k < e1 ==> IsNumChar(a[k])
    requires gy != [] && forall k :: 0 <= k < |gy| ==> IsNumChar(gy[k])
    requires a[e1 + 1] == ' ' && a[e1 + 2..e1 + 4] == "y="
    requires a[e1 + 4..e1 + 4 + |gy|] == gy && !IsNumChar(a[e1 + 4 + |gy|])
    ensures MatchYFrom(a, p, e1) == Some((a[p..e1], gy, e1 + 4 + |gy|))
  {
    RunEndIsFirst(a, e1 + 1, e1 + 2, IsSpace);
    assert a[e1 + 2..][..2] == "y=";
    RunOver(a, e1 + 4, gy, IsNumChar);
  }

  /** A run that covers exactly the characters of `g` placed at `i`. */
  lemma RunOver(a: string, i: nat, g: string, ok: char -> bool)
    requires i + |g| < |a| && a[i..i + |g|] == g
    requires forall k :: 0 <= k < |g| ==> ok(g[k])
    requires !ok(a[i + |g|])
    ensures RunEnd(a, i, ok) == i + |g|
  {
    forall k | i <= k < i + |g| ensures ok(a[k]) {
      assert a[k] == g[k - i];
    }
    RunEndIsFirst(a, i, i + |g|, ok);
  }

  /** re.match of `prefix([0-9.]+),\s*y=([0-9.]+)` at the start of `a`: the
      two number runs and where the match ends. */
  function MatchXY(a: string, prefix: string): (r: Option<(string, string, nat)>)
    ensures r.Some? ==> r.value.2 <= |a|
    ensures r.Some? ==> forall i :: 0 <= i < |r.value.0| ==> IsNumChar(r.value.0[i])
    ensures r.Some? ==> forall i :: 0 <= i < |r.value.1| ==> IsNumChar(r.value.1[i])
  {
    if !StartsWith(a, prefix) then None else MatchXFrom(a, |prefix|)
  }

  /** The x number run from `p`, then the comma. */
  function MatchXFrom(a: string, p: nat): (r: Option<(string, string, nat)>)
    requires p <= |a|
    ensures r.Some? ==> r.value.2 <= |a|
    ensures r.Some? ==> forall i :: 0 <= i < |r.value.0| ==> IsNumChar(r.value.0[i])
    ensures r.Some? ==> forall i :: 0 <= i < |r.value.1| ==> IsNumChar(r.value.1[i])
  {
    var e1 := RunEnd(a, p, IsNumChar);
    if e1 == p || e1 == |a| || a[e1] != ',' then None
    else MatchYFrom(a, p, e1)
  }

  /** After the x run `a[p..e1]` and its comma: spaces, "y=", the y number run. */
  function MatchYFrom(a: string, p: nat, e1: nat): (r: Option<(string, string, nat)>)
    requires p <= e1 < |a|
    requires forall k :: p <= k < e1 ==> IsNumChar(a[k])
    ensures r.Some? ==> r.value.2 <= |a|
    ensures r.Some? ==> forall i :: 0 <= i < |r.value.0| ==> IsNumChar(r.value.0[i])
    ensures r.Some? ==> forall i :: 0 <= i < |r.value.1| ==> IsNumChar(r.value.1[i])
  {
    var w := RunEnd(a, e1 + 1, IsSpace);
    if !StartsWith(a[w..], "y=") then None
    else
      var e2 := RunEnd(a, w + 2, IsNumChar);
      if e2 == w + 2 then None
      else Some((a[p..e1], a[w + 2..e2], e2))
  }

  /** The lazy `['"](.*?)['"]\)` of the write pattern, from position `i`: the
      text up to the first quote that is followed by `)`, with no newline. */
  function LazyQuoted(a: string, i: nat): (r: Option<string>)
    requires i <= |a|
    decreases |a| - i
  {
    if i + 1 < |a| && (a[i] == '\'' || a[i] == '"') && a[i + 1] == ')' then Some([])
    else if i < |a| && a[i] != '\n' then
      match LazyQuoted(a, i + 1)
      case None => None
      case Some(t) => Some([a[i]] + t)
    else None
  }

  predicate NotParen(c: char) { c != '(' && c != ')' }

  /** The text between the first `(` and the next `(` or `)`, as
      `a.split('(')[1].split(')')[0]` gives it; IndexError without a `(`. */
  function CallArgument(a: string): Result<string> {
    match FindFrom(a, "(", 0)
    case None => Err(IndexError)
    case Some(i) =>
      var j := RunEnd(a, i + 1, NotParen);
      Ok(a[i + 1..j])
  }

  /** Python's float() on a plain signed decimal with surrounding whitespace. */
  function SignedDecimal(t: string): Result<real> {
    var u := Strip(t);
    var neg := u != [] && u[0] == '-';
    var body := if u != [] && (u[0] == '-' || u[0] == '+') then u[1..] else u;
    if !(forall i :: 0 <= i < |body| ==> IsNumChar(body[i])) then Err(ValueError)
    else
      var v :- DecimalValue(body);
      Ok(if neg then -v else v)
  }

  /** `repr(round(v, 3))` for a non-negative number: the digits after the
      point keep at least one place and drop trailing zeros. */
  function ShowRounded3(v: real): string {
    var m := RoundHalfEven(v * 1000.0);
    var n: nat := if m < 0 then 0 else m;
    var whole := NatToString(n / 1000);
    var f := n % 1000;
    var frac := if f == 0 then "0"
                else if f % 100 == 0 then [DigitChar(f / 100)]
                else if f % 10 == 0 then [DigitChar(f / 100), DigitChar(f / 10 % 10)]
                else [DigitChar(f / 100), DigitChar(f / 10 % 10), DigitChar(f % 10)];
    whole + "." + frac
  }

  /** map_aguvis_action: a legacy `pyautogui.*` call to the action language.
      None for an unknown prefix and for a write or select_option that does
      not match its pattern; a click that does not match its pattern raises
      NameError (its coordinates are never bound). */
  function MapAguvis(a: string, windowHeight: int, windowWidth: int): (r: Result<Option<string>>)
    ensures !StartsWith(a, "pyautogui.click") && !StartsWith(a, "pyautogui.write")
            && !StartsWith(a, "pyautogui.scroll") && !StartsWith(a, "browser.select_option")
            ==> r == Ok(None)
    ensures StartsWith(a, "pyautogui.click") && MatchXY(a, "pyautogui.click(x=").None?
            ==> r == Err(NameError("x1"))
    ensures r.Err? ==> StartsWith(a, "pyautogui.click") || StartsWith(a, "pyautogui.scroll")
                       || StartsWith(a, "browser.select_option")
    ensures r.Ok? && r.value.Some? ==>
              StartsWith(r.value.value, "click(start_box='(") || StartsWith(r.value.value, "type(content='")
              || r.value.value == ScrollDown || r.value.value == ScrollUp
  {
    if StartsWith(a, "pyautogui.click") then AguvisClickCall(a, windowHeight, windowWidth)
    else if StartsWith(a, "pyautogui.write") then AguvisWriteCall(a)
    else if StartsWith(a, "pyautogui.scroll") then AguvisScrollCall(a)
    else if StartsWith(a, "browser.select_option") then AguvisSelectCall(a, windowHeight, windowWidth)
    else Ok(None)
  }

  /** `pyautogui.click(x=<fx>, y=<fy>)`, scaled to pixels. */
  function AguvisClickCall(a: string, windowHeight: int, windowWidth: int): (r: Result<Option<string>>)
    ensures r.Ok? ==> r.value.Some? && StartsWith(r.value.value, "click(start_box='(")
  {
    match MatchXY(a, "pyautogui.click(x=")
    case None => Err(NameError("x1"))
    case Some(m) =>
      if m.2 == |a| || a[m.2] != ')' then Err(NameError("x1"))
      else
        var fx :- DecimalValue(m.0);
        var fy :- DecimalValue(m.1);
        var x1 := ScaleToPixels(fx, windowWidth);
        var y1 := ScaleToPixels(fy, windowHeight);
        var p := "click(start_box='(";
        PrefixAppend(p, IntToString(x1));
        StartsWithAppend(p + IntToString(x1), p, ",");
        StartsWithAppend(p + IntToString(x1) + ",", p, IntToString(y1));
        StartsWithAppend(p + IntToString(x1) + "," + IntToString(y1), p, ")')");
        var out := p + IntToString(x1) + "," + IntToString(y1) + ")')";
        Ok(Some(out))
  }

  /** `pyautogui.write(message='<text>')`, the text taken up to the first quote. */
  function AguvisWriteCall(a: string): (r: Result<Option<string>>)
    ensures r.Ok? && (r.value.Some? ==> StartsWith(r.value.value, "type(content='"))
  {
    var p := |"pyautogui.write(message="|;
    if StartsWith(a, "pyautogui.write(message=") && p < |a| && (a[p] == '\'' || a[p] == '"') then
      match LazyQuoted(a, p + 1)
      case None => Ok(None)
      case Some(content) =>
        var out := "type(content='" + content + "')";
        assert out[..14] == "type(content='";
        Ok(Some(out))
    else Ok(None)
  }

  const ScrollDown := "scroll(direction='down')"
  const ScrollUp := "scroll(direction='up')"

  /** `pyautogui.scroll(<amount>)`: down for a positive amount. */
  function AguvisScrollCall(a: string): Result<Option<string>> {
    var arg :- CallArgument(a);
    var v :- SignedDecimal(arg);
    Ok(Some(if v > 0.0 then ScrollDown else ScrollUp))
  }

  /** `browser.select_option(x=<fx>, y=<fy>, value='<v>')`: a click at the
      scaled point, printed with three decimals. */
  function AguvisSelectCall(a: string, windowHeight: int, windowWidth: int): (r: Result<Option<string>>)
    ensures r.Ok? && r.value.Some? ==> StartsWith(r.value.value, "click(start_box='(")
  {
    match MatchXY(a, "browser.select_option(x=")
    case None => Ok(None)
    case Some(m) =>
      if !(m.2 < |a| && a[m.2] == ',') then Ok(None)
      else
        var w' := RunEnd(a, m.2 + 1, IsSpace);
        if !StartsWith(a[w'..], "value='") then Ok(None)
        else
          var q := RunEnd(a, w' + 7, c => c != '\'');
          if !(q + 1 < |a| && a[q + 1] == ')') then Ok(None)
          else
            var fx :- DecimalValue(m.0);
            var fy :- DecimalValue(m.1);
            var out := "click(start_box='(" + ShowRounded3(fx * windowWidth as real) + ","
                       + ShowRounded3(fy * windowHeight as real) + ")')";
            assert out[..18] == "click(start_box='(";
            Ok(Some(out))
  }

  /** The legacy scroll goes down exactly when its amount is positive, up
      when it is zero or negative, and raises float()'s ValueError when the
      digits and dots do not form a number; the window size plays no part. */
  lemma AguvisScrollDirection(digits: string, negative: bool, windowHeight: int, windowWidth: int)
    requires digits != [] && forall k :: 0 <= k < |digits| ==> IsNumChar(digits[k])
    ensures var a := "pyautogui.scroll(" + (if negative then "-" else "") + digits + ")";
            DecimalValue(digits).Ok? ==>
              MapAguvis(a, windowHeight, windowWidth)
              == Ok(Some(if !negative && DecimalValue(digits).value > 0.0 then ScrollDown else ScrollUp))
    ensures var a := "pyautogui.scroll(" + (if negative then "-" else "") + digits + ")";
            DecimalValue(digits).Err? ==> MapAguvis(a, windowHeight, windowWidth) == Err(ValueError)
  {
    var arg := (if negative then "-" else "") + digits;
    var a := "pyautogui.scroll(" + arg + ")";
    assert "pyautogui.scroll(" + (if negative then "-" else "") + digits + ")" == a;
    assert forall k :: 0 <= k < |arg| ==> NotParen(arg[k]) by {
      forall k | 0 <= k < |arg| ensures NotParen(arg[k]) {
        if negative && k > 0 { assert arg[k] == digits[k - 1]; }
      }
    }
    ScrollArgument(arg);
    SignedDigits(digits, negative);
    ScrollOfArgument(a, arg, windowHeight, windowWidth);
  }

  /** A whole number written out scrolls down exactly when it is positive. */
  lemma AguvisScrollAmount(amount: nat, negative: bool, windowHeight: int, windowWidth: int)
    ensures MapAguvis("pyautogui.scroll(" + (if negative then "-" else "") + NatToString(amount) + ")",
                      windowHeight, windowWidth)
         == Ok(Some(if !negative && amount > 0 then ScrollDown else ScrollUp))
  {
    DigitsAreDecimal(NatToString(amount), amount);
    AguvisScrollDirection(NatToString(amount), negative, windowHeight, windowWidth);
  }

  /** An optional minus sign in front of a run of digits and dots. */
  lemma SignedDigits(digits: string, negative: bool)
    requires digits != [] && forall k :: 0 <= k < |digits| ==> IsNumChar(digits[k])
    ensures var v := DecimalValue(digits);
            SignedDecimal((if negative then "-" else "") + digits)
            == if v.Err? then Err(v.error) else Ok(if negative then -v.value else v.value)
  {
    var arg := (if negative then "-" else "") + digits;
    assert forall k :: 0 <= k < |arg| ==> !IsSpace(arg[k]) by {
      forall k | 0 <= k < |arg| ensures !IsSpace(arg[k]) {
        if negative && k > 0 { assert arg[k] == digits[k - 1]; }
      }
    }
    NoSpaceStrip(arg);
    assert arg[0] != '+';
    var body := if arg[0] == '-' then arg[1..] else arg;
    assert body == digits by {
      if negative { assert arg[1..] == digits; } else { assert arg == digits; }
    }
    assert (arg[0] == '-') == negative;
    SignedOf(arg);
  }

  lemma SignedOf(u: string)
    requires Strip(u) == u && u != [] && u[0] != '+'
    requires var body := if u[0] == '-' then u[1..] else u;
             forall i :: 0 <= i < |body| ==> IsNumChar(body[i])
    ensures var body := if u[0] == '-' then u[1..] else u;
            var v := DecimalValue(body);
            SignedDecimal(u) == if v.Err? then Err(v.error) else Ok(if u[0] == '-' then -v.value else v.value)
  {
  }

  /** A scroll call's direction follows the sign of its argument, whatever the
      window; an argument float() rejects raises. */
  lemma ScrollOfArgument(a: string, arg: string, windowHeight: int, windowWidth: int)
    requires StartsWith(a, "pyautogui.scroll") && CallArgument(a) == Ok(arg)
    ensures SignedDecimal(arg).Ok? ==>
              MapAguvis(a, windowHeight, windowWidth)
              == Ok(Some(if SignedDecimal(arg).value > 0.0 then ScrollDown else ScrollUp))
    ensures SignedDecimal(arg).Err? ==> MapAguvis(a, windowHeight, windowWidth) == Err(SignedDecimal(arg).error)
  {
    ScrollDispatch(a, windowHeight, windowWidth);
  }

  /** A scroll call is told apart from a click or a write by its eleventh character. */
  lemma ScrollDispatch(a: string, windowHeight: int, windowWidth: int)
    requires StartsWith(a, "pyautogui.scroll")
    ensures MapAguvis(a, windowHeight, windowWidth) == AguvisScrollCall(a)
  {
    assert a[..16][10] == 's';
    assert "pyautogui.click"[10] == 'c' && "pyautogui.write"[10] == 'w';
    assert !StartsWith(a, "pyautogui.click") && !StartsWith(a, "pyautogui.write") by {
      assert a[..15][10] == 's';
    }
  }

  lemma ScrollArgument(arg: string)
    requires forall k :: 0 <= k < |arg| ==> NotParen(arg[k])
    ensures var a := "pyautogui.scroll(" + arg + ")";
            StartsWith(a, "pyautogui.scroll") && CallArgument(a) == Ok(arg)
  {
    var a := "pyautogui.scroll(" + arg + ")";
    assert a[..16] == "pyautogui.scroll";
    var i := 16;
    assert a[i] == '(';
    assert forall j :: 0 <= j < i ==> a[j] != '(';
    FindOpenParen(a, i);
    assert forall k :: 0 <= k < |arg| ==> a[i + 1 + k] == arg[k];
    assert a[i + 1 + |arg|] == ')';
    RunEndIsFirst(a, i + 1, i + 1 + |arg|, NotParen);
    assert a[i + 1..i + 1 + |arg|] == arg;
  }

  /** The legacy write keeps its message as it is (no escaping): a message
      without quotes or newlines becomes the content verbatim. */
  lemma AguvisWriteVerbatim(text: string, windowHeight: int, windowWidth: int)
    requires forall k :: 0 <= k < |text| ==> text[k] !in "'\"\n"
    ensures MapAguvis("pyautogui.write(message='" + text + "')", windowHeight, windowWidth)
         == Ok(Some("type(content='" + text + "')"))
  {
    var a := "pyautogui.write(message='" + text + "')";
    var p := |"pyautogui.write(message="|;
    assert a[..p] == "pyautogui.write(message=";
    assert a[..15] == "pyautogui.write";
    assert a[..15][10] == 'w' && "pyautogui.click"[10] == 'c';
    assert a[p] == '\'';
    LazyQuotedPlain(a, p + 1, text);
  }

  lemma {:induction false} LazyQuotedPlain(a: string, i: nat, text: string)
    requires i + |text| + 2 == |a| && a[i..] == text + "')"
    requires forall k :: 0 <= k < |text| ==> text[k] !in "'\"\n"
    ensures LazyQuoted(a, i) == Some(text)
    decreases |text|
  {
    if text == [] {
      assert a[i] == '\'' && a[i + 1] == ')';
    } else {
      assert a[i] == text[0] && text[0] !in "'\"\n";
      assert a[i + 1..] == text[1..] + "')";
      LazyQuotedPlain(a, i + 1, text[1..]);
      assert [text[0]] + text[1..] == text;
    }
  }

  lemma FindOpenParen(a: string, i: nat)
    requires i < |a| && a[i] == '('
    requires forall j :: 0 <= j < i ==> a[j] != '('
    ensures FindFrom(a, "(", 0) == Some(i)
  {
    assert a[i..][..1] == "(";
  }

  lemma RunEndIsFirst(a: string, i: nat, j: nat, ok: char -> bool)
    requires i <= j < |a|
    requires forall k :: i <= k < j ==> ok(a[k])
    requires !ok(a[j])
    ensures RunEnd(a, i, ok) == j
    decreases j - i
  {
    if i < j { RunEndIsFirst(a, i + 1, j, ok); }
  }


  lemma NoSpaceStrip(t: string)
    requires forall k :: 0 <= k < |t| ==> !IsSpace(t[k])
    ensures Strip(t) == t
  {
    assert StripLeft(t) == t;
    assert StripRight(t) == t;
  }

  lemma DigitsAreDecimal(digits: string, amount: nat)
    requires digits == NatToString(amount)
    ensures forall k :: 0 <= k < |digits| ==> IsNumChar(digits[k])
    ensures DecimalValue(digits) == Ok(amount as real)
  {
    assert RunEnd(digits, 0, IsDigit) == |digits|;
    assert digits[..|digits|] == digits;
    NatToStringValue(amount);
  }

  lemma {:induction false} NatToStringValue(n: nat)
    ensures DigitsValue(NatToString(n)) == n
  {
    if n >= 10 {
      NatToStringValue(n / 10);
      var s := NatToString(n);
      assert s[..|s| - 1] == NatToString(n / 10);
    }
  }
}

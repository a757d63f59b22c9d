/** The computer-use operator agent: a browser driver whose actions are
    sequences of page events, the handler that executes one model output item,
    and the agent loop with its per-round retry and its two logs (the raw
    outputs and the processed entries). */
module RunOperator {
  import opened Common
  import opened Json
  import opened Browser
  import MapAction

  // ---------------------------------------------------------------------------
  // Event traces of the driver's actions

  /** The pause after most actions. */
  const ActionPause := 3000

  /** A click: the element under the point is retargeted first; "back",
      "forward" and "wheel" are not mouse buttons but navigation and a wheel
      turn; any other button clicks, with the right button exactly when its
      lower-cased name is "right". */
  function ClickEvents(x: int, y: int, button: string): seq<Event> {
    [SetTargetSelf(x as real, y as real)] +
    (if button == "back" then [GoBack, Sleep(ActionPause)]
     else if button == "forward" then [GoForward, Sleep(ActionPause)]
     else if button == "wheel" then [MouseWheel(x, y)]
     else [MouseClick(x as real, y as real, if Lower(button) == "right" then RightButton else LeftButton)])
    + [Sleep(ActionPause)]
  }

  /** The key a driver presses for `k`: the table entry for its lower-cased
      form, or `k` itself, not lower-cased, when the table has none. */
  function MapKey(table: map<string, string>, k: string): string {
    if Lower(k) in table then table[Lower(k)] else k
  }

  function MapKeys(table: map<string, string>, keys: seq<string>): (r: seq<string>)
    ensures |r| == |keys|
    ensures forall i :: 0 <= i < |keys| && Lower(keys[i]) in table ==> r[i] == table[Lower(keys[i])]
    ensures forall i :: 0 <= i < |keys| && Lower(keys[i]) !in table ==> r[i] == keys[i]
  {
    seq(|keys|, i requires 0 <= i < |keys| => MapKey(table, keys[i]))
  }

  function Reverse<T>(s: seq<T>): (r: seq<T>)
    ensures |r| == |s|
    ensures forall i :: 0 <= i < |s| ==> r[i] == s[|s| - 1 - i]
  {
    seq(|s|, i requires 0 <= i < |s| => s[|s| - 1 - i])
  }

  function Downs(keys: seq<string>): (r: seq<Event>)
    ensures |r| == |keys| && forall i :: 0 <= i < |keys| ==> r[i] == KeyDown(keys[i])
  {
    seq(|keys|, i requires 0 <= i < |keys| => KeyDown(keys[i]))
  }

  function Ups(keys: seq<string>): (r: seq<Event>)
    ensures |r| == |keys| && forall i :: 0 <= i < |keys| ==> r[i] == KeyUp(keys[i])
  {
    seq(|keys|, i requires 0 <= i < |keys| => KeyUp(keys[i]))
  }

  lemma DownsSnoc(keys: seq<string>, k: string)
    ensures Downs(keys + [k]) == Downs(keys) + [KeyDown(k)]
  {
  }

  lemma UpsSnoc(keys: seq<string>, k: string)
    ensures Ups(keys + [k]) == Ups(keys) + [KeyUp(k)]
  {
  }

  /** A chord: every key down in order, then every key up in reverse order. */
  function ChordEvents(keys: seq<string>): seq<Event> {
    Downs(keys) + Ups(Reverse(keys))
  }

  /** Pressing every key of a chord holds all of them at once, and the
      releases undo the presses last-in first-out, leaving no key held. */
  lemma ChordIsNested(keys: seq<string>)
    ensures Held([], Downs(keys)) == Some(keys)
    ensures Held([], ChordEvents(keys)) == Some([])
  {
    HeldDowns([], keys);
    assert [] + keys == keys;
    HeldConcat([], Downs(keys), Ups(Reverse(keys)));
    HeldUps([], keys);
  }

  lemma {:induction false} HeldDowns(held: seq<string>, keys: seq<string>)
    ensures Held(held, Downs(keys)) == Some(held + keys)
    decreases |keys|
  {
    if keys == [] {
      assert held + keys == held;
    } else {
      assert Downs(keys)[1..] == Downs(keys[1..]);
      HeldDowns(held + [keys[0]], keys[1..]);
      assert held + [keys[0]] + keys[1..] == held + keys;
    }
  }

  lemma {:induction false} HeldUps(held: seq<string>, keys: seq<string>)
    ensures Held(held + keys, Ups(Reverse(keys))) == Some(held)
    decreases |keys|
  {
    if keys != [] {
      var last := keys[|keys| - 1];
      var front := keys[..|keys| - 1];
      assert Ups(Reverse(keys))[0] == KeyUp(last);
      assert Ups(Reverse(keys))[1..] == Ups(Reverse(front));
      assert (held + keys)[..|held + keys| - 1] == held + front;
      HeldUps(held, front);
    } else {
      assert held + keys == held;
    }
  }

  lemma {:induction false} HeldConcat(held: seq<string>, a: seq<Event>, b: seq<Event>)
    ensures Held(held, a + b) == match Held(held, a) case None => None case Some(h) => Held(h, b)
    decreases |a|
  {
    if a == [] {
      assert a + b == b;
    } else {
      assert (a + b)[0] == a[0] && (a + b)[1..] == a[1..] + b;
      match a[0]
      case KeyDown(k) => HeldConcat(held + [k], a[1..], b);
      case KeyUp(k) =>
        if held != [] && held[|held| - 1] == k { HeldConcat(held[..|held| - 1], a[1..], b); }
      case _ => HeldConcat(held, a[1..], b);
    }
  }

  function Moves(path: seq<(int, int)>): (r: seq<Event>)
    ensures |r| == |path|
    ensures forall i :: 0 <= i < |path| ==> r[i] == MouseMove(path[i].0 as real, path[i].1 as real)
  {
    seq(|path|, i requires 0 <= i < |path| => MouseMove(path[i].0 as real, path[i].1 as real))
  }

  lemma MovesSnoc(path: seq<(int, int)>, p: (int, int))
    ensures Moves(path + [p]) == Moves(path) + [MouseMove(p.0 as real, p.1 as real)]
  {
  }

  lemma Regroup(log: seq<Event>, a: Event, b: Event, m: seq<Event>, c: Event, d: Event)
    ensures log + [a] + [b] + m + [c] + [d] == log + ([a, b] + m + [c, d])
  {
  }

  /** A drag: nothing for an empty path; otherwise move to the first point,
      press, move through the remaining points, release and pause. */
  function DragEvents(path: seq<(int, int)>): seq<Event> {
    if path == [] then []
    else [MouseMove(path[0].0 as real, path[0].1 as real), MouseDown] + Moves(path[1..]) + [MouseUp, Sleep(ActionPause)]
  }

  /** Read back through the pointer: a drag visits its first point with the
      button up, every later point in order with the button down, and ends
      with the button up. */
  lemma DragStrokes(path: seq<(int, int)>)
    ensures path == [] ==> DragEvents(path) == []
    ensures path != [] ==>
              var s := Strokes(false, DragEvents(path));
              !s.1 && |s.0| == |path| &&
              forall i :: 0 <= i < |path| ==> s.0[i] == (path[i].0 as real, path[i].1 as real, i > 0)
  {
    if path != [] {
      var rest := path[1..];
      var tail := [MouseUp, Sleep(ActionPause)];
      var e := DragEvents(path);
      assert e == [MouseMove(path[0].0 as real, path[0].1 as real)] + ([MouseDown] + (Moves(rest) + tail));
      assert Strokes(true, tail) == ([], false) by {
        var t1 := [Sleep(ActionPause)];
        assert tail[0] == MouseUp && tail[1..] == t1;
        assert t1[1..] == [];
        assert Strokes(false, t1) == Strokes(false, []);
      }
      StrokesOfMoves(rest, tail, true);
      assert Strokes(true, [MouseDown] + (Moves(rest) + tail)) == Strokes(true, Moves(rest) + tail) by {
        assert ([MouseDown] + (Moves(rest) + tail))[1..] == Moves(rest) + tail;
      }
      assert Strokes(false, [MouseDown] + (Moves(rest) + tail)) == Strokes(true, Moves(rest) + tail) by {
        assert ([MouseDown] + (Moves(rest) + tail))[1..] == Moves(rest) + tail;
      }
      assert e[1..] == [MouseDown] + (Moves(rest) + tail);
    }
  }

  lemma {:induction false} StrokesOfMoves(path: seq<(int, int)>, tail: seq<Event>, pressed: bool)
    requires Strokes(true, tail) == ([], false)
    ensures var s := Strokes(true, Moves(path) + tail);
            !s.1 && |s.0| == |path| &&
            forall i :: 0 <= i < |path| ==> s.0[i] == (path[i].0 as real, path[i].1 as real, true)
    decreases |path|
  {
    if path == [] {
      assert Moves(path) + tail == tail;
    } else {
      var e := Moves(path) + tail;
      assert e[0] == MouseMove(path[0].0 as real, path[0].1 as real);
      assert e[1..] == Moves(path[1..]) + tail;
      StrokesOfMoves(path[1..], tail, pressed);
    }
  }

  /** A click always starts by retargeting the element under the point and
      ends with the pause, and it presses the right button exactly when the
      lower-cased button name is "right". */
  lemma ClickShape(x: int, y: int, button: string)
    ensures var e := ClickEvents(x, y, button);
            |e| >= 3 && e[0] == SetTargetSelf(x as real, y as real) && e[|e| - 1] == Sleep(ActionPause)
    ensures (exists i :: 0 <= i < |ClickEvents(x, y, button)| &&
               ClickEvents(x, y, button)[i] == MouseClick(x as real, y as real, RightButton))
            <==> Lower(button) == "right"
  {
    var e := ClickEvents(x, y, button);
    if Lower(button) == "right" {
      assert button != "back" && button != "forward" && button != "wheel";
      assert e[1] == MouseClick(x as real, y as real, RightButton);
    }
  }

  // ---------------------------------------------------------------------------
  // The driver

  /** A driver action with its arguments bound. */
  datatype Command =
    | Click(x: int, y: int, button: string)
    | DoubleClick(x: int, y: int)
    | Scroll(x: int, y: int, scrollX: int, scrollY: int)
    | Type(text: string)
    | Wait(ms: int)
    | Move(x: int, y: int)
    | Keypress(keys: seq<string>)
    | Drag(path: seq<(int, int)>)
    | Goto(url: Option<string>)   // None: a url that is not a string, which Playwright refuses
    | Back
    | Forward

  /** The events a bound action performs. */
  function CommandEvents(table: map<string, string>, c: Command): seq<Event> {
    match c
    case Click(x, y, b) => ClickEvents(x, y, b)
    case DoubleClick(x, y) => [MouseDblClick(x as real, y as real), Sleep(ActionPause)]
    case Scroll(x, y, sx, sy) => [MouseMove(x as real, y as real), ScrollBy(sx, sy), Sleep(ActionPause)]
    case Type(t) => [TypeText(t), Sleep(ActionPause)]
    case Wait(ms) => [Sleep(ms)]
    case Move(x, y) => [MouseMove(x as real, y as real)]
    case Keypress(keys) => ChordEvents(MapKeys(table, keys))
    case Drag(path) => DragEvents(path)
    case Goto(url) => (if url.Some? then [Navigate(url.value)] else []) + [Sleep(ActionPause)]
    case Back => [GoBack, Sleep(ActionPause)]
    case Forward => [GoForward, Sleep(ActionPause)]
  }

  /** The browser driver (PlaywrightComputer): each action appends its events
      to the page. */
  class Computer {
    const page: Page
    /** The computer-use key name table; its contents are not part of this model. */
    const keyTable: map<string, string>

    constructor(page: Page, keyTable: map<string, string>)
      ensures this.page == page && this.keyTable == keyTable
    {
      this.page := page;
      this.keyTable := keyTable;
    }

    method Click(x: int, y: int, button: string)
      modifies page
      ensures page.log == old(page.log) + ClickEvents(x, y, button)
    {
      page.Emit(SetTargetSelf(x as real, y as real));
      if button == "back" {
        Back();
      } else if button == "forward" {
        Forward();
      } else if button == "wheel" {
        page.Emit(MouseWheel(x, y));
      } else {
        page.Emit(MouseClick(x as real, y as real, if Lower(button) == "right" then RightButton else LeftButton));
      }
      page.Emit(Sleep(ActionPause));
    }

    method DoubleClick(x: int, y: int)
      modifies page
      ensures page.log == old(page.log) + [MouseDblClick(x as real, y as real), Sleep(ActionPause)]
    {
      page.Emit(MouseDblClick(x as real, y as real));
      page.Emit(Sleep(ActionPause));
    }

    method Scroll(x: int, y: int, scrollX: int, scrollY: int)
      modifies page
      ensures page.log == old(page.log) + [MouseMove(x as real, y as real), ScrollBy(scrollX, scrollY), Sleep(ActionPause)]
    {
      page.Emit(MouseMove(x as real, y as real));
      page.Emit(ScrollBy(scrollX, scrollY));
      page.Emit(Sleep(ActionPause));
    }

    method Type(text: string)
      modifies page
      ensures page.log == old(page.log) + [TypeText(text), Sleep(ActionPause)]
    {
      page.Emit(TypeText(text));
      page.Emit(Sleep(ActionPause));
    }

    method Wait(ms: int)
      modifies page
      ensures page.log == old(page.log) + [Sleep(ms)]
    {
      page.Emit(Sleep(ms));
    }

    method Move(x: int, y: int)
      modifies page
      ensures page.log == old(page.log) + [MouseMove(x as real, y as real)]
    {
      page.Emit(MouseMove(x as real, y as real));
    }

    /** Every key down in list order, then every key up in reverse order. */
    method Keypress(keys: seq<string>)
      modifies page
      ensures page.log == old(page.log) + ChordEvents(MapKeys(keyTable, keys))
    {
      var mapped := MapKeys(keyTable, keys);
      PressKeys(mapped);
      ReleaseKeys(Reverse(mapped));
    }

    method PressKeys(keys: seq<string>)
      modifies page
      ensures page.log == old(page.log) + Downs(keys)
    {
      var i := 0;
      while i < |keys|
        invariant 0 <= i <= |keys|
        invariant page.log == old(page.log) + Downs(keys[..i])
      {
        page.Emit(KeyDown(keys[i]));
        assert keys[..i + 1] == keys[..i] + [keys[i]];
        DownsSnoc(keys[..i], keys[i]);
        i := i + 1;
      }
      assert keys[..i] == keys;
    }

    method ReleaseKeys(keys: seq<string>)
      modifies page
      ensures page.log == old(page.log) + Ups(keys)
    {
      var j := 0;
      while j < |keys|
        invariant 0 <= j <= |keys|
        invariant page.log == old(page.log) + Ups(keys[..j])
      {
        page.Emit(KeyUp(keys[j]));
        assert keys[..j + 1] == keys[..j] + [keys[j]];
        UpsSnoc(keys[..j], keys[j]);
        j := j + 1;
      }
      assert keys[..j] == keys;
    }

    /** Move to the first point, press, move through the rest, release. */
    method Drag(path: seq<(int, int)>)
      modifies page
      ensures page.log == old(page.log) + DragEvents(path)
    {
      if path == [] { return; }
      ghost var log0 := page.log;
      page.Emit(MouseMove(path[0].0 as real, path[0].1 as real));
      page.Emit(MouseDown);
      MoveThrough(path[1..]);
      page.Emit(MouseUp);
      page.Emit(Sleep(ActionPause));
      Regroup(log0, MouseMove(path[0].0 as real, path[0].1 as real), MouseDown, Moves(path[1..]), MouseUp, Sleep(ActionPause));
    }

    method MoveThrough(points: seq<(int, int)>)
      modifies page
      ensures page.log == old(page.log) + Moves(points)
    {
      var i := 0;
      while i < |points|
        invariant 0 <= i <= |points|
        invariant page.log == old(page.log) + Moves(points[..i])
      {
        page.Emit(MouseMove(points[i].0 as real, points[i].1 as real));
        assert points[..i + 1] == points[..i] + [points[i]];
        MovesSnoc(points[..i], points[i]);
        i := i + 1;
      }
      assert points[..i] == points;
    }

    /** Navigation errors are caught and only reported, so a failed
        navigation records the same events as a successful one, and a url
        that is not a string only the pause. */
    method Goto(url: Option<string>)
      modifies page
      ensures page.log == old(page.log) + (if url.Some? then [Navigate(url.value)] else []) + [Sleep(ActionPause)]
    {
      if url.Some? {
        page.Emit(Navigate(url.value));
      }
      page.Emit(Sleep(ActionPause));
    }

    method Back()
      modifies page
      ensures page.log == old(page.log) + [GoBack, Sleep(ActionPause)]
    {
      page.Emit(GoBack);
      page.Emit(Sleep(ActionPause));
    }

    method Forward()
      modifies page
      ensures page.log == old(page.log) + [GoForward, Sleep(ActionPause)]
    {
      page.Emit(GoForward);
      page.Emit(Sleep(ActionPause));
    }

    method TakeScreenshot(path: string)
      modifies page
      ensures page.log == old(page.log) + [Screenshot(path)]
    {
      page.Emit(Screenshot(path));
    }

    /** Runs a bound action. */
    method Execute(c: Command)
      modifies page
      ensures page.log == old(page.log) + CommandEvents(keyTable, c)
    {
      match c
      case Click(x, y, b) => Click(x, y, b);
      case DoubleClick(x, y) => DoubleClick(x, y);
      case Scroll(x, y, sx, sy) => Scroll(x, y, sx, sy);
      case Type(t) => Type(t);
      case Wait(ms) => Wait(ms);
      case Move(x, y) => Move(x, y);
      case Keypress(keys) => Keypress(keys);
      case Drag(path) => Drag(path);
      case Goto(url) => Goto(url);
      case Back => Back();
      case Forward => Forward();
    }
  }

  // ---------------------------------------------------------------------------
  // Binding an action record to a driver action (`getattr(computer, type)(**args)`)

  /** The driver methods an action record can name. */
  const DriverActions: set<string> :=
    {"click", "double_click", "scroll", "type", "wait", "move", "keypress", "drag", "goto", "back", "forward"}

  /** The computer's other attributes: its constructor, the two plain
      getters and the fields its constructor sets. Calling one with
      an action's arguments, or awaiting what it returns, is a TypeError. */
  const OtherAttributes: set<string> :=
    {"__init__", "get_environment", "get_current_url", "args", "task", "_playwright", "_browser", "_page"}

  /** A name of Python's special form `__name__`. */
  predicate Special(name: string) {
    |name| >= 4 && name[..2] == "__" && name[|name| - 2..] == "__"
  }

  predicate OnlyKeys(args: Dict, allowed: set<string>) {
    forall i :: 0 <= i < |args| ==> args[i].0 in allowed
  }

  /** A required integer keyword argument. */
  function IntArg(args: Dict, name: string): Result<int> {
    match Get(args, name)
    case Some(Int(i)) => Ok(i)
    case _ => Err(TypeError)
  }

  function StrArg(args: Dict, name: string, default: Option<string>): Result<string> {
    match Get(args, name)
    case Some(Str(s)) => Ok(s)
    case None => if default.Some? then Ok(default.value) else Err(TypeError)
    case Some(_) => Err(TypeError)
  }

  /** The points of a drag path: a list of records with integer x and y. */
  function PathPoints(items: seq<Value>): Result<seq<(int, int)>> {
    if items == [] then Ok([])
    else
      var x :- Subscript(items[0], "x");
      var y :- Subscript(items[0], "y");
      if !x.Int? || !y.Int? then Err(TypeError)
      else
        var rest :- PathPoints(items[1..]);
        Ok([(x.i, y.i)] + rest)
  }

  /** The points a drag path stands for. A falsy path (an empty list,
      string or dict, or 0) is an empty drag: `if not path: return`. Any
      other non-list fails at `path[0]["x"]`: a dict on its key 0, which it
      never has, a string or an integer with a TypeError. */
  function DragPath(path: Value): (r: Result<seq<(int, int)>>)
    ensures path.List? ==> r == PathPoints(path.items)
    ensures path in {Str(""), Obj([]), Int(0)} ==> r == Ok([])
  {
    match path
    case List(items) => PathPoints(items)
    case Str(s) => if s == "" then Ok([]) else Err(TypeError)
    case Int(i) => if i == 0 then Ok([]) else Err(TypeError)
    case Obj(fields) => if fields == [] then Ok([]) else Err(KeyError("0"))
  }

  /** Binds the keyword arguments of an action record to the driver method
      named by its type: a name the computer does not define is an
      AttributeError; another attribute of the computer, or an unexpected or
      missing argument, a TypeError. */
  function Bind(name: string, args: Dict): (r: Result<Command>)
    ensures r.Ok? ==> name in DriverActions
    ensures name !in DriverActions && name !in OtherAttributes && !Special(name) ==> r == Err(AttributeError(name))
  {
    if name == "click" then
      if !OnlyKeys(args, {"x", "y", "button"}) then Err(TypeError)
      else
        var x :- IntArg(args, "x");
        var y :- IntArg(args, "y");
        match Get(args, "button")
        case None => Ok(Click(x, y, "left"))
        case Some(Str(b)) => Ok(Click(x, y, b))
        case Some(_) => Err(AttributeError("lower"))
    else if name == "double_click" || name == "move" then
      if !OnlyKeys(args, {"x", "y"}) then Err(TypeError)
      else
        var x :- IntArg(args, "x");
        var y :- IntArg(args, "y");
        Ok(if name == "move" then Move(x, y) else DoubleClick(x, y))
    else if name == "scroll" then
      if !OnlyKeys(args, {"x", "y", "scroll_x", "scroll_y"}) then Err(TypeError)
      else
        var x :- IntArg(args, "x");
        var y :- IntArg(args, "y");
        var sx :- IntArg(args, "scroll_x");
        var sy :- IntArg(args, "scroll_y");
        Ok(Scroll(x, y, sx, sy))
    else if name == "type" then
      if !OnlyKeys(args, {"text"}) then Err(TypeError)
      else
        var t :- StrArg(args, "text", None);
        Ok(Type(t))
    else if name == "wait" then
      if !OnlyKeys(args, {"ms"}) then Err(TypeError)
      else
        match Get(args, "ms")
        case None => Ok(Wait(1000))
        case Some(Int(ms)) => Ok(Wait(ms))
        case Some(_) => Err(TypeError)
    else if name == "keypress" then
      if !OnlyKeys(args, {"keys"}) then Err(TypeError)
      else
        match Get(args, "keys")
        case None => Err(TypeError)
        case Some(v) =>
          var keys :- KeyNames(v);
          Ok(Keypress(keys))
    else if name == "drag" then
      if !OnlyKeys(args, {"path"}) then Err(TypeError)
      else
        match Get(args, "path")
        case None => Err(TypeError)
        case Some(path) =>
          var points :- DragPath(path);
          Ok(Drag(points))
    else if name == "goto" then
      if !OnlyKeys(args, {"url"}) then Err(TypeError)
      else
        match Get(args, "url")
        case None => Err(TypeError)
        case Some(Str(url)) => Ok(Goto(Some(url)))
        case Some(_) => Ok(Goto(None))
    else if name == "back" || name == "forward" then
      if args != [] then Err(TypeError)
      else Ok(if name == "back" then Back else Forward)
    else if name in OtherAttributes then Err(TypeError)
    else Err(AttributeError(name))
  }

  /** Naming another attribute of the computer is a TypeError, whatever the
      arguments. */
  lemma BindOtherAttribute(name: string, args: Dict)
    requires name in OtherAttributes
    ensures Bind(name, args) == Err(TypeError)
  {
  }

  // ---------------------------------------------------------------------------
  // handle_item

  predicate HasType(item: Value, t: string) {
    item.Obj? && Get(item.fields, "type") == Some(Str(t))
  }

  /** `item[field][0]["text"]`. */
  function FirstText(item: Value, field: string): Result<Value> {
    var list :- Subscript(item, field);
    var first :- Index(list, 0);
    Subscript(first, "text")
  }

  /** The output a computer call answers with: its call id, the safety checks
      it acknowledges, and the screenshot taken after the action. */
  function CallOutput(callId: Value, acknowledged: Value, imgPath: string): Value {
    Obj([("type", Str("computer_call_output")), ("call_id", callId),
         ("acknowledged_safety_checks", acknowledged),
         ("output", Obj([("type", Str("input_image")), ("image_url", Str(imgPath))]))])
  }

  /** What handling one output item does: its result and its events. A
      message or reasoning item returns nothing and performs nothing; a
      computer call runs its action (none for "screenshot"), then always
      takes a screenshot, and answers with its call id. */
  function HandleSpec(table: map<string, string>, item: Value, imgPath: string): (Result<Option<Value>>, seq<Event>) {
    match Subscript(item, "type")
    case Err(e) => (Err(e), [])
    case Ok(t) =>
      if t == Str("message") || t == Str("reasoning") then
        match FirstText(item, if t == Str("message") then "content" else "summary")
        case Err(e) => (Err(e), [])
        case Ok(_) => (Ok(None), [])
      else if t != Str("computer_call") then (Ok(None), [])
      else
        match Subscript(item, "action")
        case Err(e) => (Err(e), [])
        case Ok(action) =>
          match Subscript(action, "type")
          case Err(e) => (Err(e), [])
          case Ok(kind) =>
            var performed: Result<seq<Event>> :=
              if kind == Str("screenshot") then Ok([])
              else if !kind.Str? then Err(TypeError)
              else
                match Bind(kind.s, Without(action.fields, "type"))
                case Err(e) => Err(e)
                case Ok(c) => Ok(CommandEvents(table, c));
            match performed
            case Err(e) => (Err(e), [])
            case Ok(events) =>
              var shot := events + [Screenshot(imgPath)];
              match Subscript(item, "call_id")
              case Err(e) => (Err(e), shot)
              case Ok(callId) =>
                (Ok(Some(CallOutput(callId, Get(item.fields, "pending_safety_checks").GetOr(List([])), imgPath))), shot)
  }

  /** A screenshot always follows a computer call's action, the answer
      echoes the call id and acknowledges the pending safety checks (none when
      absent), and any other item returns nothing and touches nothing. */
  lemma HandleItemContract(table: map<string, string>, item: Value, imgPath: string)
    ensures var (r, events) := HandleSpec(table, item, imgPath);
            (r.Ok? && r.value.Some? ==>
               HasType(item, "computer_call") && events != [] && events[|events| - 1] == Screenshot(imgPath) &&
               r.value.value == CallOutput(Get(item.fields, "call_id").value,
                                           Get(item.fields, "pending_safety_checks").GetOr(List([])), imgPath)) &&
            (!HasType(item, "computer_call") ==> events == [] && (r.Ok? ==> r.value.None?))
  {
  }

  /** A well-formed computer call that is not a screenshot performs exactly
      its bound action, then the screenshot. */
  lemma ComputerCallEvents(table: map<string, string>, callId: Value, kind: string, args: Dict, imgPath: string, c: Command)
    requires Get(args, "type").None?
    requires kind != "screenshot" && Bind(kind, args) == Ok(c)
    ensures var item := Obj([("type", Str("computer_call")), ("call_id", callId),
                             ("action", Obj([("type", Str(kind))] + args))]);
            HandleSpec(table, item, imgPath)
            == (Ok(Some(CallOutput(callId, List([]), imgPath))), CommandEvents(table, c) + [Screenshot(imgPath)])
  {
    var action := [("type", Str(kind))] + args;
    var item := Obj([("type", Str("computer_call")), ("call_id", callId), ("action", Obj(action))]);
    GetCons(("type", Str(kind)), args, "type");
    WithoutFresh(("type", Str(kind)), args);
    var tail := [("action", Obj(action))];
    var rest := [("call_id", callId)] + tail;
    assert item.fields == [("type", Str("computer_call"))] + rest;
    GetCons(("type", Str("computer_call")), rest, "type");
    GetCons(("type", Str("computer_call")), rest, "action");
    GetCons(("type", Str("computer_call")), rest, "call_id");
    GetCons(("type", Str("computer_call")), rest, "pending_safety_checks");
    GetCons(("call_id", callId), tail, "action");
    GetCons(("call_id", callId), tail, "call_id");
    GetCons(("call_id", callId), tail, "pending_safety_checks");
    GetCons(("action", Obj(action)), [], "action");
    GetCons(("action", Obj(action)), [], "pending_safety_checks");
    HandleCall(table, item, action, kind, args, callId, imgPath, c);
  }

  lemma HandleCall(table: map<string, string>, item: Value, action: Dict, kind: string, args: Dict,
                   callId: Value, imgPath: string, c: Command)
    requires item.Obj?
    requires Get(item.fields, "type") == Some(Str("computer_call"))
    requires Get(item.fields, "action") == Some(Obj(action))
    requires Get(item.fields, "call_id") == Some(callId)
    requires Get(item.fields, "pending_safety_checks") == None
    requires Get(action, "type") == Some(Str(kind)) && Without(action, "type") == args
    requires kind != "screenshot" && Bind(kind, args) == Ok(c)
    ensures HandleSpec(table, item, imgPath)
            == (Ok(Some(CallOutput(callId, List([]), imgPath))), CommandEvents(table, c) + [Screenshot(imgPath)])
  {
  }

  lemma WithoutFresh(p: (string, Value), d: Dict)
    requires Get(d, p.0).None?
    ensures Without([p] + d, p.0) == d
  {
    assert ([p] + d)[1..] == d;
    WithoutAbsent(d, p.0);
  }

  lemma {:induction false} WithoutAbsent(d: Dict, k: string)
    requires Get(d, k).None?
    ensures Without(d, k) == d
    decreases |d|
  {
    if d != [] {
      assert d[0].0 != k;
      assert Get(d[1..], k).None?;
      WithoutAbsent(d[1..], k);
      assert [d[0]] + d[1..] == d;
    }
  }

  /** handle_item. */
  method HandleItem(computer: Computer, item: Value, imgPath: string) returns (r: Result<Option<Value>>)
    modifies computer.page
    ensures r == HandleSpec(computer.keyTable, item, imgPath).0
    ensures computer.page.log == old(computer.page.log) + HandleSpec(computer.keyTable, item, imgPath).1
  {
    var t :- Subscript(item, "type");
    if t == Str("message") || t == Str("reasoning") {
      var _ :- FirstText(item, if t == Str("message") then "content" else "summary");
      return Ok(None);
    }
    if t != Str("computer_call") {
      return Ok(None);
    }
    var action :- Subscript(item, "action");
    var kind :- Subscript(action, "type");
    if kind != Str("screenshot") {
      if !kind.Str? {
        return Err(TypeError);
      }
      var c :- Bind(kind.s, Without(action.fields, "type"));
      computer.Execute(c);
    }
    computer.TakeScreenshot(imgPath);
    var callId :- Subscript(item, "call_id");
    var acknowledged := Get(item.fields, "pending_safety_checks").GetOr(List([]));
    return Ok(Some(CallOutput(callId, acknowledged, imgPath)));
  }

  // ---------------------------------------------------------------------------
  // The processed log

  /** The two variables of the logging loop, `message_type` and `content`:
      unbound until first assigned, and kept from item to item, from attempt
      to attempt and from round to round. */
  datatype Carried = Carried(messageType: Option<string>, content: Option<Value>)

  const Unbound := Carried(None, None)

  /** The entry built from the two variables: a NameError for the first that
      is still unbound. */
  function Built(c: Carried): (r: Result<Value>)
    ensures r.Ok? <==> c.messageType.Some? && c.content.Some?
  {
    if c.messageType.None? then Err(NameError("message_type"))
    else if c.content.None? then Err(NameError("content"))
    else Ok(Entry(c.messageType.value, c.content.value))
  }

  /** One output item: the two variables afterwards, and the entry logged or
      the error raised. A known item type sets `message_type` before the
      subscripts that read its content, so an item that raises there leaves
      the new type with the old content; an item of any other type reuses
      both. */
  function LogStep(output: Value, previous: Carried): (Carried, Result<Value>) {
    if !output.Obj? then (previous, Err(AttributeError("get")))
    else
      var t := Get(output.fields, "type");
      if t == Some(Str("computer_call")) then
        var typed := previous.(messageType := Some("action"));
        match Subscript(output, "action")
        case Err(e) => (typed, Err(e))
        case Ok(action) =>
          if !action.Obj? then (typed, Err(AttributeError("items")))
          else
            match Subscript(action, "type")
            case Err(e) => (typed, Err(e))
            case Ok(kind) =>
              var c := Carried(Some("action"), Some(Obj(MapAction.ProcessedRecord(kind, Without(action.fields, "type")))));
              (c, Built(c))
      else if t == Some(Str("reasoning")) || t == Some(Str("message")) then
        var typed := previous.(messageType := Some(if t == Some(Str("reasoning")) then "thought" else "final_answer"));
        match FirstText(output, if t == Some(Str("reasoning")) then "summary" else "content")
        case Err(e) => (typed, Err(e))
        case Ok(text) =>
          var c := typed.(content := Some(text));
          (c, Built(c))
      else (previous, Built(previous))
  }

  /** A processed-log entry. */
  function Entry(messageType: string, content: Value): Value {
    Obj([("author", Str("assistant")), ("message_type", Str(messageType)),
         ("content", Obj([("content_type", Str("text")), ("parts", List([content]))]))])
  }

  /** The entries logged for a response's outputs, the two variables left
      for the next item, and the error that stopped the logging, if any:
      entries already logged stay logged. */
  function LogEntries(outputs: seq<Value>, previous: Carried)
    : (r: (seq<Value>, Carried, Option<Error>))
    ensures |r.0| <= |outputs|
    ensures r.2.None? ==> |r.0| == |outputs|
    decreases |outputs|
  {
    if outputs == [] then ([], previous, None)
    else
      var step := LogStep(outputs[0], previous);
      match step.1
      case Err(e) => ([], step.0, Some(e))
      case Ok(entry) =>
        var rest := LogEntries(outputs[1..], step.0);
        ([entry] + rest.0, rest.1, rest.2)
  }

  /** A computer call is logged as an "action" whose content, fed to the
      logged-form encoder, gives the same action string as the raw action. */
  lemma LoggedActionReplays(output: Dict, action: Dict, kind: string, previous: Carried, followPrompt: bool)
    requires Get(output, "type") == Some(Str("computer_call")) && Get(output, "action") == Some(Obj(action))
    requires Get(action, "type") == Some(Str(kind)) && kind in MapAction.KnownKinds
    ensures var r := LogStep(Obj(output), previous);
            r.0.messageType == Some("action") && r.0.content.Some? && r.0.content.value.Obj? &&
            r.1 == Ok(Entry("action", r.0.content.value)) &&
            MapAction.MapProcessed(r.0.content.value.fields, followPrompt) == MapAction.MapOai(action, followPrompt)
  {
    MapAction.ProcessedAgreesWithRaw(action, kind, followPrompt);
  }

  /** Reasoning is logged as a "thought" and a message as the "final_answer",
      each with the first text of the item. */
  lemma LoggedTextKinds(output: Dict, text: Value, previous: Carried)
    requires Get(output, "type") == Some(Str("reasoning")) || Get(output, "type") == Some(Str("message"))
    requires FirstText(Obj(output), if Get(output, "type") == Some(Str("reasoning")) then "summary" else "content") == Ok(text)
    ensures var kind := if Get(output, "type") == Some(Str("reasoning")) then "thought" else "final_answer";
            LogStep(Obj(output), previous) == (Carried(Some(kind), Some(text)), Ok(Entry(kind, text)))
  {
  }

  /** An item of a known type whose content cannot be read still changes the
      message type: an item of another type after it is logged with the new
      type and the content of the last item that was read. */
  lemma StaleContentAfterRaise(failed: Dict, other: Dict, previous: Carried)
    requires Get(failed, "type") == Some(Str("reasoning")) && FirstText(Obj(failed), "summary").Err?
    requires Get(other, "type") !in {Some(Str("computer_call")), Some(Str("reasoning")), Some(Str("message"))}
    requires previous.content.Some?
    ensures var after := LogStep(Obj(failed), previous);
            after.1.Err? && after.0.messageType == Some("thought") &&
            LogStep(Obj(other), after.0).1 == Ok(Entry("thought", previous.content.value))
  {
  }

  /** Logs each output in turn (the source's loop over the response output). */
  method LogOutputs(outputs: seq<Value>, previous: Carried)
    returns (entries: seq<Value>, last: Carried, err: Option<Error>)
    ensures (entries, last, err) == LogEntries(outputs, previous)
  {
    entries, last, err := [], previous, None;
    var i := 0;
    assert outputs[i..] == outputs;
    assert [] + LogEntries(outputs, previous).0 == LogEntries(outputs, previous).0;
    while i < |outputs|
      invariant 0 <= i <= |outputs|
      invariant var r := LogEntries(outputs[i..], last);
                LogEntries(outputs, previous) == (entries + r.0, r.1, r.2)
      decreases |outputs| - i
    {
      assert outputs[i..][0] == outputs[i];
      var step := LogStep(outputs[i], last);
      match step.1
      case Err(e) =>
        assert LogEntries(outputs[i..], last) == ([], step.0, Some(e));
        assert entries + [] == entries;
        last, err := step.0, Some(e);
        return;
      case Ok(entry) =>
        assert outputs[i..][1..] == outputs[i + 1..];
        var r := LogEntries(outputs[i + 1..], step.0);
        assert LogEntries(outputs[i..], last) == ([entry] + r.0, r.1, r.2);
        assert entries + ([entry] + r.0) == (entries + [entry]) + r.0;
        entries := entries + [entry];
        last := step.0;
        i := i + 1;
    }
    assert outputs[i..] == [];
    assert entries + [] == entries;
  }

  // ---------------------------------------------------------------------------
  // run_task

  /** The task statement the agent opens with. */
  function TaskPrompt(question: string, web: string): string {
    TaskOpening + question + TaskMiddle + web + TaskClosing
  }

  const TaskOpening := "Now given a task: "
  const TaskMiddle := " Please interact with "
  const TaskClosing := " and get the answer. Once you have found the answer, please reply by providing the answer as "
    + "finished(content='<your_answer>') and exit the task."

  /** The first item of both logs. */
  function InitialItem(question: string, web: string): Value {
    Obj([("role", Str("user")), ("content", Str(TaskPrompt(question, web)))])
  }

  /** The first request's input: the task statement and the opening
      screenshot (its image data stands as the screenshot's path). */
  function FirstInput(question: string, web: string, shot: string): seq<Value> {
    [Obj([("role", Str("user")),
          ("content", List([Obj([("type", Str("input_text")), ("text", Str(TaskPrompt(question, web)))]),
                            Obj([("type", Str("input_image")), ("image_url", Str(shot))])]))])]
  }

  /** The screenshot file of round `n`. */
  function ShotPath(n: nat): string {
    "screenshot" + NatToString(n) + ".png"
  }

  /** One attempt at the model: it raises, or it answers with a response id
      and, possibly, an output list. */
  datatype ApiReply = Raised | Replied(id: string, output: Option<seq<Value>>)

  /** A request as sent: the previous response id and the input. */
  datatype Request = Request(previous: Option<string>, input: seq<Value>)

  datatype Outcome = Answered | Exhausted | Crashed(error: Error)

  const MaxRetries := 20
  const RetryPause := 10000

  // ---------------------------------------------------------------------------
  // The run as a function of the model's answers

  /** What one answer adds to the processed log and to the raw log, and the
      logged type and content it leaves: the entries of its items up to the
      first that cannot be logged, and its items themselves only when every
      one was logged (`response['output']` raises when there is no list). */
  function AnswerLogs(a: ApiReply, previous: Carried)
    : (seq<Value>, seq<Value>, Carried)
  {
    match a
    case Raised => ([], [], previous)
    case Replied(_, output) =>
      var r := LogEntries(output.GetOr([]), previous);
      (r.0, if r.2.None? && output.Some? then output.value else [], r.1)
  }

  /** An answer that ends the retries of its round: it came back with an
      output list whose items were all logged. */
  predicate FullyLogged(a: ApiReply, previous: Carried) {
    a.Replied? && a.output.Some? && LogEntries(a.output.value, previous).2.None?
  }

  /** What the first `n` answers add to the processed and the raw log, in
      order, and the last logged type and content. */
  function Logged(reply: nat -> ApiReply, n: nat): (seq<Value>, seq<Value>, Carried) {
    if n == 0 then ([], [], Unbound)
    else
      var before := Logged(reply, n - 1);
      var step := AnswerLogs(reply(n - 1), before.2);
      (before.0 + step.0, before.1 + step.1, step.2)
  }

  /** The id and output of the last of the first `n` answers that was
      received, if any. */
  function LastReplied(reply: nat -> ApiReply, n: nat): Option<(string, Option<seq<Value>>)> {
    if n == 0 then None
    else
      match reply(n - 1)
      case Replied(id, output) => Some((id, output))
      case Raised => LastReplied(reply, n - 1)
  }

  /** Whether the answer to request `n` ends its round. */
  predicate FullyLoggedAt(reply: nat -> ApiReply, n: nat) {
    FullyLogged(reply(n), Logged(reply, n).2)
  }

  /** The previous response named by a request of round `it` sent after `n`
      requests: none in the first round, else the last answer received. */
  function PreviousId(reply: nat -> ApiReply, n: nat, it: nat): Option<string> {
    if it == 0 then None
    else
      match LastReplied(reply, n)
      case Some(p) => Some(p.0)
      case None => None
  }

  /** The output list a round handles after `n` requests: that of the last
      answer received. */
  function RoundOutput(reply: nat -> ApiReply, n: nat): Option<seq<Value>> {
    match LastReplied(reply, n)
    case Some(p) => p.1
    case None => None
  }

  /** Every item in the raw log has its entry in the processed log: the raw
      log never outgrows the processed one. */
  lemma {:induction false} ProcessedCoversRaw(reply: nat -> ApiReply, n: nat)
    ensures |Logged(reply, n).1| <= |Logged(reply, n).0|
  {
    if n > 0 {
      ProcessedCoversRaw(reply, n - 1);
      var a := reply(n - 1);
      if a.Replied? {
        var r := LogEntries(a.output.GetOr([]), Logged(reply, n - 1).2);
        assert r.2.None? ==> |r.0| == |a.output.GetOr([])|;
      }
    }
  }

  /** Logs only grow: what the first `k` answers add is a prefix of what the
      first `n` add. */
  lemma {:induction false} LoggedGrows(reply: nat -> ApiReply, k: nat, n: nat)
    requires k <= n
    ensures var a, b := Logged(reply, k), Logged(reply, n);
            |a.0| <= |b.0| && b.0[..|a.0|] == a.0 && |a.1| <= |b.1| && b.1[..|a.1|] == a.1
  {
    if k < n {
      LoggedGrows(reply, k, n - 1);
      var a, m, b := Logged(reply, k), Logged(reply, n - 1), Logged(reply, n);
      assert b.0[..|m.0|] == m.0 && b.1[..|m.1|] == m.1;
      assert b.0[..|a.0|] == m.0[..|a.0|];
      assert b.1[..|a.1|] == m.1[..|a.1|];
    }
  }

  // ---------------------------------------------------------------------------
  // The page events of a run

  /** The events of one attempt before the model is asked: screenshot 0, in
      the first round only. */
  function AttemptEvents(it: nat): seq<Event> {
    if it == 0 then [Screenshot(ShotPath(0))] else []
  }

  /** `k` failed attempts, each followed by the ten-second pause. */
  function RetryEvents(it: nat, k: nat): seq<Event> {
    if k == 0 then [] else RetryEvents(it, k - 1) + AttemptEvents(it) + [Sleep(RetryPause)]
  }

  /** The events of a round's `n` attempts: all but the last failed when
      the round is `done`, all of them otherwise. */
  function RoundEvents(it: nat, n: nat, done: bool): seq<Event> {
    if done && n > 0 then RetryEvents(it, n - 1) + AttemptEvents(it) else RetryEvents(it, n)
  }

  /** The events of handling `items` in turn. */
  function HandleEvents(table: map<string, string>, items: seq<Value>, imgPath: string): seq<Event> {
    if items == [] then []
    else HandleEvents(table, items[..|items| - 1], imgPath) + HandleSpec(table, items[|items| - 1], imgPath).1
  }

  /** The input of the next request after handling `items`: the output of
      the last item that answered with one, else `input`. */
  function NextInput(table: map<string, string>, items: seq<Value>, imgPath: string, input: seq<Value>): seq<Value> {
    if items == [] then input
    else
      match HandleSpec(table, items[|items| - 1], imgPath).0
      case Ok(Some(v)) => [v]
      case _ => NextInput(table, items[..|items| - 1], imgPath, input)
  }

  lemma AppendAssoc<T>(a: seq<T>, b: seq<T>, c: seq<T>)
    ensures a + b + c == a + (b + c)
  {
  }

  /** A log holding the events of the items handled so far, extended by the
      next item's events, holds the events of the items including it. */
  lemma HandledLogged(table: map<string, string>, start: seq<Event>, log: seq<Event>, log': seq<Event>,
                      items: seq<Value>, item: Value, imgPath: string, input: seq<Value>)
    requires log == start + HandleEvents(table, items, imgPath)
    requires log' == log + HandleSpec(table, item, imgPath).1
    ensures log' == start + HandleEvents(table, items + [item], imgPath)
    ensures NextInput(table, items + [item], imgPath, input)
         == match HandleSpec(table, item, imgPath).0
            case Ok(Some(v)) => [v]
            case _ => NextInput(table, items, imgPath, input)
  {
    HandleSnoc(table, items, item, imgPath, input);
    AppendAssoc(start, HandleEvents(table, items, imgPath), HandleSpec(table, item, imgPath).1);
  }

  lemma HandleSnoc(table: map<string, string>, items: seq<Value>, item: Value, imgPath: string, input: seq<Value>)
    ensures HandleEvents(table, items + [item], imgPath)
         == HandleEvents(table, items, imgPath) + HandleSpec(table, item, imgPath).1
    ensures NextInput(table, items + [item], imgPath, input)
         == match HandleSpec(table, item, imgPath).0
            case Ok(Some(v)) => [v]
            case _ => NextInput(table, items, imgPath, input)
  {
    assert (items + [item])[..|items|] == items;
  }

  /** The events of a whole run, round by round: the attempts, then the
      handling of the items with the next round's screenshot. */
  function RunEvents(table: map<string, string>, attempts: seq<nat>, dones: seq<bool>, rounds: seq<seq<Value>>)
    : seq<Event>
    requires |attempts| == |dones| == |rounds|
  {
    if attempts == [] then []
    else
      var n := |attempts|;
      RunEvents(table, attempts[..n - 1], dones[..n - 1], rounds[..n - 1])
      + RoundEvents(n - 1, attempts[n - 1], dones[n - 1]) + HandleEvents(table, rounds[n - 1], ShotPath(n))
  }

  function Flatten(rounds: seq<seq<Value>>): seq<Value> {
    if rounds == [] then [] else Flatten(rounds[..|rounds| - 1]) + rounds[|rounds| - 1]
  }

  lemma FlattenSnoc(rounds: seq<seq<Value>>, round: seq<Value>)
    ensures Flatten(rounds + [round]) == Flatten(rounds) + round
  {
    assert (rounds + [round])[..|rounds|] == rounds;
  }

  /** The number of requests made before round `r`. */
  function RoundStart(attempts: seq<nat>, r: nat): nat
    requires r <= |attempts|
  {
    if r == 0 then 0 else RoundStart(attempts, r - 1) + attempts[r - 1]
  }

  /** Adding a round leaves where the earlier rounds start unchanged. */
  lemma {:induction false} RoundStartSnoc(attempts: seq<nat>, a: nat, r: nat)
    requires r <= |attempts|
    ensures RoundStart(attempts + [a], r) == RoundStart(attempts, r)
  {
    if r > 0 {
      RoundStartSnoc(attempts, a, r - 1);
    }
  }

  /** Later rounds start no earlier than the second one. */
  lemma {:induction false} RoundStartAtLeastFirst(attempts: seq<nat>, r: nat)
    requires 1 <= r <= |attempts|
    ensures RoundStart(attempts, r) >= attempts[0]
  {
    if r > 1 {
      RoundStartAtLeastFirst(attempts, r - 1);
    }
  }

  // ---------------------------------------------------------------------------
  // The loop

  /** The state the agent loop carries from attempt to attempt. */
  datatype LoopState = LoopState(
    calls: nat,                                  // requests sent so far in the run
    response: Option<(string, Option<seq<Value>>)>, // the last answer received
    previous: Carried,                           // message_type and content
    input: seq<Value>,                           // the input of the next request
    rawLogs: seq<Value>,
    processedLogs: seq<Value>)

  /** `s` is where the run stands after its first `s.calls` answers. */
  predicate Tracks(s: LoopState, question: string, web: string, reply: nat -> ApiReply) {
    var logged := Logged(reply, s.calls);
    s.processedLogs == [InitialItem(question, web)] + logged.0 &&
    s.rawLogs == [InitialItem(question, web)] + logged.1 &&
    s.previous == logged.2 &&
    s.response == LastReplied(reply, s.calls)
  }

  /** One request of round `it`: the first round takes screenshot 0 and
      starts from the first input; later rounds name the last response.
      `done` when the answer came back with items that were all logged. */
  method Attempt(computer: Computer, question: string, web: string, it: nat, reply: nat -> ApiReply, s0: LoopState)
    returns (s: LoopState, req: Request, done: bool)
    requires Tracks(s0, question, web, reply)
    requires it > 0 ==> s0.response.Some?
    modifies computer.page
    ensures Tracks(s, question, web, reply) && s.calls == s0.calls + 1
    ensures done == FullyLoggedAt(reply, s0.calls)
    ensures s.input == if it == 0 then FirstInput(question, web, ShotPath(0)) else s0.input
    ensures req == Request(PreviousId(reply, s0.calls, it), s.input)
    ensures it > 0 ==> s.response.Some?
    ensures computer.page.log == old(computer.page.log) + AttemptEvents(it)
  {
    s := s0;
    if it == 0 {
      computer.TakeScreenshot(ShotPath(0));
      s := s.(input := FirstInput(question, web, ShotPath(0)));
    }
    var prev := if it > 0 then Some(s.response.value.0) else None;
    req := Request(prev, s.input);
    var answer := reply(s.calls);
    TracksNext(s0, question, web, reply, s.input);
    ghost var step := AnswerLogs(answer, s0.previous);
    done := false;
    if answer.Replied? {
      var entries, last, err := LogOutputs(answer.output.GetOr([]), s.previous);
      var raw := [];
      if err.None? && answer.output.Some? {
        raw := answer.output.value;
        done := true;
      }
      assert (entries, raw, last) == step;
      s := s.(calls := s.calls + 1, response := Some((answer.id, answer.output)),
              processedLogs := s.processedLogs + entries, rawLogs := s.rawLogs + raw, previous := last);
    } else {
      assert step == ([], [], s0.previous);
      s := s.(calls := s.calls + 1, processedLogs := s.processedLogs + [], rawLogs := s.rawLogs + []);
    }
  }

  lemma NoneLoggedExtend(reply: nat -> ApiReply, from: nat, k: nat)
    requires forall n :: from <= n < from + k ==> !FullyLoggedAt(reply, n)
    requires !FullyLoggedAt(reply, from + k)
    ensures forall n :: from <= n < from + k + 1 ==> !FullyLoggedAt(reply, n)
  {
  }

  /** The state after the next answer, whatever the next input. */
  lemma TracksNext(s0: LoopState, question: string, web: string, reply: nat -> ApiReply, input: seq<Value>)
    requires Tracks(s0, question, web, reply)
    ensures var a := reply(s0.calls);
            var step := AnswerLogs(a, s0.previous);
            Tracks(LoopState(s0.calls + 1, if a.Replied? then Some((a.id, a.output)) else s0.response,
                             step.2, input, s0.rawLogs + step.1, s0.processedLogs + step.0),
                   question, web, reply)
  {
    var before := Logged(reply, s0.calls);
    var step := AnswerLogs(reply(s0.calls), s0.previous);
    AppendAssoc([InitialItem(question, web)], before.0, step.0);
    AppendAssoc([InitialItem(question, web)], before.1, step.1);
  }

  /** One round's requests: retried until an answer is fully logged, at
      most 20 times, pausing ten seconds after each failure. */
  method RequestRound(computer: Computer, question: string, web: string, it: nat, reply: nat -> ApiReply, s0: LoopState)
    returns (s: LoopState, sent: seq<Request>, done: bool)
    requires Tracks(s0, question, web, reply)
    requires it > 0 ==> s0.response.Some?
    modifies computer.page
    ensures Tracks(s, question, web, reply)
    ensures 1 <= |sent| <= MaxRetries && s.calls == s0.calls + |sent|
    ensures s.input == if it == 0 then FirstInput(question, web, ShotPath(0)) else s0.input
    ensures RoundSent(reply, s0.calls, it, sent, s.input, done)
    ensures forall i :: 0 <= i < |sent| ==> (sent[i].previous.None? <==> it == 0)
    ensures it > 0 ==> s.response.Some?
    ensures computer.page.log == old(computer.page.log) + RoundEvents(it, |sent|, done)
  {
    ghost var input := if it == 0 then FirstInput(question, web, ShotPath(0)) else s0.input;
    s := s0;
    sent := [];
    var retry := 0;
    done := false;
    while retry < MaxRetries && !done
      invariant Polling(reply, question, web, it, s0, input, s, sent, retry, done)
      invariant computer.page.log == old(computer.page.log) + RoundEvents(it, |sent|, done)
      decreases MaxRetries - retry, !done
    {
      ghost var log := computer.page.log;
      var s', req, ok := Attempt(computer, question, web, it, reply, s);
      AttemptLogged(old(computer.page.log), log, computer.page.log, it, retry);
      PollingStep(reply, question, web, it, s0, input, s, sent, retry, s', req, ok);
      sent := sent + [req];
      s, done := s', ok;
      if !done {
        computer.page.Emit(Sleep(RetryPause));
        retry := retry + 1;
      }
    }
    PollingEnds(reply, question, web, it, s0, input, s, sent, retry, done);
  }

  /** The state of a round's retry loop after `retry` failed attempts: the
      loop state tracks the answers logged, an answer is in hand after the
      first round, and the requests are as `Retried` says. */
  ghost predicate Polling(reply: nat -> ApiReply, question: string, web: string, it: nat, s0: LoopState,
                          input: seq<Value>, s: LoopState, sent: seq<Request>, retry: nat, done: bool)
  {
    retry <= MaxRetries && (done ==> retry < MaxRetries) &&
    Tracks(s, question, web, reply) &&
    (it > 0 ==> s.response.Some?) &&
    s.calls == s0.calls + |sent| &&
    (it > 0 ==> s.input == s0.input) &&
    (sent != [] ==> s.input == input) &&
    Retried(reply, s0.calls, it, sent, input, retry, done)
  }

  /** One attempt of the retry loop keeps its invariant. */
  lemma PollingStep(reply: nat -> ApiReply, question: string, web: string, it: nat, s0: LoopState,
                    input: seq<Value>, s: LoopState, sent: seq<Request>, retry: nat,
                    s': LoopState, req: Request, ok: bool)
    requires retry < MaxRetries && Polling(reply, question, web, it, s0, input, s, sent, retry, false)
    requires input == if it == 0 then FirstInput(question, web, ShotPath(0)) else s0.input
    requires Tracks(s', question, web, reply) && s'.calls == s.calls + 1
    requires ok == FullyLoggedAt(reply, s.calls)
    requires s'.input == if it == 0 then FirstInput(question, web, ShotPath(0)) else s.input
    requires req == Request(PreviousId(reply, s.calls, it), s'.input)
    requires it > 0 ==> s'.response.Some?
    ensures Polling(reply, question, web, it, s0, input, s', sent + [req], if ok then retry else retry + 1, ok)
  {
    RetriedSnoc(reply, s0.calls, it, sent, input, retry, req, ok);
  }

  /** When the retry loop ends, the round's requests are as `RoundSent` says. */
  lemma PollingEnds(reply: nat -> ApiReply, question: string, web: string, it: nat, s0: LoopState,
                    input: seq<Value>, s: LoopState, sent: seq<Request>, retry: nat, done: bool)
    requires Polling(reply, question, web, it, s0, input, s, sent, retry, done)
    requires input == if it == 0 then FirstInput(question, web, ShotPath(0)) else s0.input
    requires retry == MaxRetries || done
    ensures Tracks(s, question, web, reply)
    ensures 1 <= |sent| <= MaxRetries && s.calls == s0.calls + |sent|
    ensures s.input == input
    ensures RoundSent(reply, s0.calls, it, sent, s.input, done)
    ensures forall i :: 0 <= i < |sent| ==> (sent[i].previous.None? <==> it == 0)
    ensures it > 0 ==> s.response.Some?
  {
    RetriedSent(reply, s0.calls, it, sent, input, retry, done);
  }

  /** The events of a round after one more attempt: those of a round that
      ends with it, or, followed by the pause, of one that retries. */
  lemma AttemptLogged(start: seq<Event>, log: seq<Event>, log': seq<Event>, it: nat, retry: nat)
    requires log == start + RoundEvents(it, retry, false)
    requires log' == log + AttemptEvents(it)
    ensures log' == start + RoundEvents(it, retry + 1, true)
    ensures log' + [Sleep(RetryPause)] == start + RoundEvents(it, retry + 1, false)
  {
    AppendAssoc(start, RetryEvents(it, retry), AttemptEvents(it));
    AppendAssoc(start, RetryEvents(it, retry) + AttemptEvents(it), [Sleep(RetryPause)]);
  }

  /** The requests of a round so far, after `retry` failed attempts: each
      carries the round's input and, after the first round, the id of the
      last answer; none of the failed attempts' answers was fully logged, and
      when `done` the last one was. */
  ghost predicate Retried(reply: nat -> ApiReply, start: nat, it: nat, sent: seq<Request>, input: seq<Value>,
                          retry: nat, done: bool)
  {
    |sent| == (if done then retry + 1 else retry) &&
    (forall i :: 0 <= i < |sent| ==> sent[i] == Request(PreviousId(reply, start + i, it), input)) &&
    (forall i :: 0 <= i < |sent| ==> (sent[i].previous.None? <==> it == 0)) &&
    (forall n :: start <= n < start + retry ==> !FullyLoggedAt(reply, n)) &&
    (done ==> FullyLoggedAt(reply, start + |sent| - 1))
  }

  /** One more attempt extends the requests of a round. */
  lemma RetriedSnoc(reply: nat -> ApiReply, start: nat, it: nat, sent: seq<Request>, input: seq<Value>, retry: nat,
                    req: Request, ok: bool)
    requires Retried(reply, start, it, sent, input, retry, false)
    requires it > 0 ==> LastReplied(reply, start + |sent|).Some?
    requires req == Request(PreviousId(reply, start + |sent|, it), input)
    requires ok == FullyLoggedAt(reply, start + |sent|)
    ensures Retried(reply, start, it, sent + [req], input, if ok then retry else retry + 1, ok)
  {
    if !ok {
      NoneLoggedExtend(reply, start, retry);
    }
  }

  /** When the retries end, the requests of the round are as `RoundSent` says. */
  lemma RetriedSent(reply: nat -> ApiReply, start: nat, it: nat, sent: seq<Request>, input: seq<Value>, retry: nat,
                    done: bool)
    requires Retried(reply, start, it, sent, input, retry, done)
    requires retry <= MaxRetries && (done ==> retry < MaxRetries) && (retry == MaxRetries || done)
    ensures RoundSent(reply, start, it, sent, input, done)
    ensures forall i :: 0 <= i < |sent| ==> (sent[i].previous.None? <==> it == 0)
  {
    if !done {
      assert !FullyLoggedAt(reply, start + |sent| - 1);
    }
  }

  /** Handles the items of one answer in order, each followed by the
      screenshot of round `it + 1`; stops after the first message (answered)
      or at the first error (crashed). The input of the next request becomes
      the last computer call's output. */
  method HandleRound(computer: Computer, output: seq<Value>, it: nat, input0: seq<Value>)
    returns (stop: Option<Outcome>, handled: seq<Value>, input: seq<Value>)
    modifies computer.page
    ensures |handled| <= |output| && handled == output[..|handled|]
    ensures stop.None? ==> handled == output
    ensures stop.Some? ==> handled != [] && (stop.value.Answered? || stop.value.Crashed?)
    ensures forall i :: 0 <= i < |handled| - 1 ==>
              HandleSpec(computer.keyTable, handled[i], ShotPath(it + 1)).0.Ok? && !HasType(handled[i], "message")
    ensures stop.None? && handled != [] ==>
              HandleSpec(computer.keyTable, handled[|handled| - 1], ShotPath(it + 1)).0.Ok? &&
              !HasType(handled[|handled| - 1], "message")
    ensures stop == Some(Answered) ==>
              HandleSpec(computer.keyTable, handled[|handled| - 1], ShotPath(it + 1)).0.Ok? &&
              HasType(handled[|handled| - 1], "message")
    ensures stop.Some? && stop.value.Crashed? ==>
              HandleSpec(computer.keyTable, handled[|handled| - 1], ShotPath(it + 1)).0 == Err(stop.value.error)
    ensures input == NextInput(computer.keyTable, handled, ShotPath(it + 1), input0)
    ensures computer.page.log == old(computer.page.log) + HandleEvents(computer.keyTable, handled, ShotPath(it + 1))
  {
    var path := ShotPath(it + 1);
    var table := computer.keyTable;
    input := input0;
    handled := [];
    stop := None;
    var k := 0;
    while k < |output| && stop.None?
      invariant 0 <= k <= |output| && handled == output[..k]
      invariant HandledSoFar(table, path, handled, stop)
      invariant input == NextInput(table, handled, path, input0)
      invariant computer.page.log == old(computer.page.log) + HandleEvents(table, handled, path)
      decreases |output| - k
    {
      var item := output[k];
      stop, input := HandleNext(computer, path, old(computer.page.log), input0, handled, item, input);
      handled := handled + [item];
      k := k + 1;
    }
    if stop.None? {
      assert output[..k] == output;
    }
  }

  /** One step of `HandleRound`: handles `item` and decides whether the
      round stops after it. */
  method HandleNext(computer: Computer, path: string, ghost start: seq<Event>, ghost input0: seq<Value>,
                    ghost handled: seq<Value>, item: Value, input: seq<Value>)
    returns (stop: Option<Outcome>, input': seq<Value>)
    requires HandledSoFar(computer.keyTable, path, handled, None)
    requires input == NextInput(computer.keyTable, handled, path, input0)
    requires computer.page.log == start + HandleEvents(computer.keyTable, handled, path)
    modifies computer.page
    ensures HandledSoFar(computer.keyTable, path, handled + [item], stop)
    ensures input' == NextInput(computer.keyTable, handled + [item], path, input0)
    ensures computer.page.log == start + HandleEvents(computer.keyTable, handled + [item], path)
  {
    ghost var log0 := computer.page.log;
    var r := HandleItem(computer, item, path);
    HandledLogged(computer.keyTable, start, log0, computer.page.log, handled, item, path, input0);
    input' := input;
    stop := None;
    if r.Err? {
      stop := Some(Crashed(r.error));
    } else {
      if r.value.Some? {
        input' := [r.value.value];
      }
      if HasType(item, "message") {
        stop := Some(Answered);
      }
    }
    HandledStep(computer.keyTable, path, handled, item, stop);
  }

  /** The outcome of handling items one by one: every item before the last
      succeeded and was not a message; the handling stops after a message or
      a failed item, and otherwise goes on. */
  ghost predicate HandledSoFar(table: map<string, string>, path: string, handled: seq<Value>, stop: Option<Outcome>) {
    (forall i :: 0 <= i < |handled| - 1 ==>
       HandleSpec(table, handled[i], path).0.Ok? && !HasType(handled[i], "message")) &&
    (stop.None? && handled != [] ==>
       HandleSpec(table, handled[|handled| - 1], path).0.Ok? && !HasType(handled[|handled| - 1], "message")) &&
    (stop.Some? ==> handled != [] && (stop.value.Answered? || stop.value.Crashed?)) &&
    (stop == Some(Answered) ==>
       HandleSpec(table, handled[|handled| - 1], path).0.Ok? && HasType(handled[|handled| - 1], "message")) &&
    (stop.Some? && stop.value.Crashed? ==> HandleSpec(table, handled[|handled| - 1], path).0 == Err(stop.value.error))
  }

  /** Handling one more item after items that all went on. */
  lemma HandledStep(table: map<string, string>, path: string, handled: seq<Value>, item: Value, stop: Option<Outcome>)
    requires HandledSoFar(table, path, handled, None)
    requires stop == match HandleSpec(table, item, path).0
                     case Err(e) => Some(Crashed(e))
                     case Ok(_) => if HasType(item, "message") then Some(Answered) else None
    ensures HandledSoFar(table, path, handled + [item], stop)
  {
    assert (handled + [item])[|handled|] == item;
    assert forall i :: 0 <= i < |handled| ==> (handled + [item])[i] == handled[i];
  }

  /** The requests of round `it`, the first of them request `start` of the
      run: between 1 and 20 of them, all with `input` and naming the last
      answer received before them; every answer but the last failed to be
      fully logged, the last was exactly when `done`, and a round that never
      succeeded made all 20 attempts. */
  predicate RoundSent(reply: nat -> ApiReply, start: nat, it: nat, sent: seq<Request>, input: seq<Value>, done: bool) {
    1 <= |sent| <= MaxRetries &&
    (forall i :: 0 <= i < |sent| ==> sent[i] == Request(PreviousId(reply, start + i, it), input)) &&
    (forall n :: start <= n < start + |sent| - 1 ==> !FullyLoggedAt(reply, n)) &&
    (done <==> FullyLoggedAt(reply, start + |sent| - 1)) &&
    (!done ==> |sent| == MaxRetries)
  }

  /** The requests of the rounds so far, round by round as `RoundSent`
      describes: round `r` made `attempts[r]` of them, with `inputs[r]`,
      and its last answer was fully logged exactly when `dones[r]`. */
  predicate RoundsSent(reply: nat -> ApiReply, attempts: seq<nat>, dones: seq<bool>,
                       inputs: seq<seq<Value>>, requests: seq<Request>)
    decreases |attempts|
  {
    |attempts| == |dones| == |inputs| &&
    if attempts == [] then requests == []
    else
      var r := |attempts| - 1;
      attempts[r] <= |requests| &&
      var start := |requests| - attempts[r];
      RoundsSent(reply, attempts[..r], dones[..r], inputs[..r], requests[..start]) &&
      RoundSent(reply, start, r, requests[start..], inputs[r], dones[r])
  }

  /** The record of the rounds accounts for every request of the run. */
  lemma {:induction false} RoundsSentCount(reply: nat -> ApiReply, attempts: seq<nat>, dones: seq<bool>,
                                           inputs: seq<seq<Value>>, requests: seq<Request>)
    requires RoundsSent(reply, attempts, dones, inputs, requests)
    ensures |requests| == RoundStart(attempts, |attempts|)
    ensures forall r :: 0 <= r < |attempts| ==> 1 <= attempts[r] <= MaxRetries
    decreases |attempts|
  {
    if attempts != [] {
      var r := |attempts| - 1;
      var start := |requests| - attempts[r];
      RoundsSentCount(reply, attempts[..r], dones[..r], inputs[..r], requests[..start]);
      assert attempts == attempts[..r] + [attempts[r]];
      RoundStartSnoc(attempts[..r], attempts[r], r);
    }
  }

  lemma RoundsSentSnoc(reply: nat -> ApiReply, attempts: seq<nat>, dones: seq<bool>, inputs: seq<seq<Value>>,
                       requests: seq<Request>, sent: seq<Request>, input: seq<Value>, done: bool)
    requires RoundsSent(reply, attempts, dones, inputs, requests)
    requires RoundSent(reply, |requests|, |attempts|, sent, input, done)
    ensures RoundsSent(reply, attempts + [|sent|], dones + [done], inputs + [input], requests + sent)
  {
    var attempts', dones', inputs', requests' := attempts + [|sent|], dones + [done], inputs + [input], requests + sent;
    var r := |attempts|;
    assert attempts'[..r] == attempts && attempts'[r] == |sent|;
    assert dones'[..r] == dones && dones'[r] == done;
    assert inputs'[..r] == inputs && inputs'[r] == input;
    assert requests'[..|requests|] == requests && requests'[|requests|..] == sent;
    assert RoundSent(reply, |requests|, r, requests'[|requests|..], inputs'[r], dones'[r]);
  }

  /** Each round's input: the first input in round 0, and after that the
      input the previous round's handling left. */
  predicate InputsChain(table: map<string, string>, first: seq<Value>, rounds: seq<seq<Value>>, inputs: seq<seq<Value>>)
    decreases |inputs|
  {
    |rounds| == |inputs| &&
    (inputs == [] ||
     var n := |inputs| - 1;
     InputsChain(table, first, rounds[..n], inputs[..n]) &&
     inputs[n] == if n == 0 then first else NextInput(table, rounds[n - 1], ShotPath(n), inputs[n - 1]))
  }

  /** Every round handled the whole output list of its last answer. */
  predicate OutputsHandled(reply: nat -> ApiReply, attempts: seq<nat>, rounds: seq<seq<Value>>)
    decreases |rounds|
  {
    |attempts| == |rounds| &&
    (rounds == [] ||
     var n := |rounds| - 1;
     OutputsHandled(reply, attempts[..n], rounds[..n]) && RoundOutput(reply, RoundStart(attempts, n + 1)) == Some(rounds[n]))
  }

  lemma InputsChainSnoc(table: map<string, string>, first: seq<Value>, rounds: seq<seq<Value>>, inputs: seq<seq<Value>>,
                        round: seq<Value>, input: seq<Value>)
    requires InputsChain(table, first, rounds, inputs)
    requires input == if inputs == [] then first else NextInput(table, rounds[|rounds| - 1], ShotPath(|rounds|), inputs[|inputs| - 1])
    ensures InputsChain(table, first, rounds + [round], inputs + [input])
  {
    var rounds', inputs', n := rounds + [round], inputs + [input], |inputs|;
    assert rounds'[..n] == rounds && inputs'[..n] == inputs && inputs'[n] == input;
    assert n > 0 ==> rounds'[n - 1] == rounds[n - 1] && inputs'[n - 1] == inputs[n - 1];
  }

  lemma OutputsHandledSnoc(reply: nat -> ApiReply, attempts: seq<nat>, rounds: seq<seq<Value>>, a: nat, round: seq<Value>)
    requires OutputsHandled(reply, attempts, rounds)
    requires |attempts| == |rounds|
    requires RoundOutput(reply, RoundStart(attempts + [a], |attempts| + 1)) == Some(round)
    ensures OutputsHandled(reply, attempts + [a], rounds + [round])
  {
    assert (attempts + [a])[..|attempts|] == attempts;
    assert (rounds + [round])[..|rounds|] == rounds;
  }

  /** The agent loop. `reply(n)` is the model's answer to the n-th request of
      the run. Each round retries the request until an answer is fully logged,
      at most 20 times; the round then handles the items of the last answer
      received, stopping after the first message. Round `r` makes
      `attempts[r]` requests with input `inputs[r]` and handles `rounds[r]`;
      `dones[r]` says whether its last answer was fully logged. */
  method RunTask(computer: Computer, question: string, web: string, maxIter: nat, reply: nat -> ApiReply)
    returns (outcome: Outcome, rawLogs: seq<Value>, processedLogs: seq<Value>,
             handled: seq<Value>, attempts: seq<nat>, requests: seq<Request>,
             ghost dones: seq<bool>, ghost rounds: seq<seq<Value>>, ghost inputs: seq<seq<Value>>)
    modifies computer.page
    ensures RunShape(reply, computer.keyTable, question, web, rawLogs, processedLogs, attempts, requests, dones, rounds, inputs)
    ensures RunEnding(reply, maxIter, outcome, handled, attempts, requests, rounds)
    ensures computer.page.log == old(computer.page.log) + RunEvents(computer.keyTable, attempts, dones, rounds)
  {
    ghost var table, start := computer.keyTable, computer.page.log;
    var s := LoopState(0, None, Unbound, [], [InitialItem(question, web)], [InitialItem(question, web)]);
    handled, attempts, requests := [], [], [];
    dones, rounds, inputs := [], [], [];
    outcome := Exhausted;
    var it := 0;
    while it < maxIter
      invariant it == |attempts| <= maxIter
      invariant Playing(reply, table, question, web, attempts, dones, inputs, rounds, requests, handled, s)
      invariant computer.page.log == start + RunEvents(table, attempts, dones, rounds)
      decreases maxIter - it
    {
      var s', sent, done, input, round, stop := Step(computer, question, web, maxIter, it, reply, s, start,
                                                     attempts, dones, inputs, rounds, requests, handled);
      handled, requests, attempts := handled + round, requests + sent, attempts + [|sent|];
      dones, inputs, rounds := dones + [done], inputs + [input], rounds + [round];
      if stop.Some? {
        outcome := stop.value;
        rawLogs, processedLogs := s'.rawLogs, s'.processedLogs;
        return;
      }
      s := s';
      it := it + 1;
    }
    rawLogs, processedLogs := s.rawLogs, s.processedLogs;
    Exhausts(reply, table, question, web, maxIter, attempts, dones, inputs, rounds, requests, handled, s);
  }

  /** What the agent loop keeps from round to round: the rounds played so far,
      an answer in hand after the first, and every output list handled in full
      without a message among its items. */
  ghost predicate Playing(reply: nat -> ApiReply, table: map<string, string>, question: string, web: string,
                          attempts: seq<nat>, dones: seq<bool>, inputs: seq<seq<Value>>, rounds: seq<seq<Value>>,
                          requests: seq<Request>, handled: seq<Value>, s: LoopState)
  {
    Played(reply, table, question, web, attempts, dones, inputs, rounds, requests, s) &&
    (|attempts| > 0 ==> s.response.Some?) &&
    OutputsHandled(reply, attempts, rounds) &&
    handled == Flatten(rounds) &&
    forall i :: 0 <= i < |handled| ==> !HasType(handled[i], "message")
  }

  /** The loop's last round ran out without a stop: the run ends exhausted. */
  lemma Exhausts(reply: nat -> ApiReply, table: map<string, string>, question: string, web: string, maxIter: nat,
                 attempts: seq<nat>, dones: seq<bool>, inputs: seq<seq<Value>>, rounds: seq<seq<Value>>,
                 requests: seq<Request>, handled: seq<Value>, s: LoopState)
    requires |attempts| == maxIter
    requires Playing(reply, table, question, web, attempts, dones, inputs, rounds, requests, handled, s)
    ensures RunShape(reply, table, question, web, s.rawLogs, s.processedLogs, attempts, requests, dones, rounds, inputs)
    ensures RunEnding(reply, maxIter, Exhausted, handled, attempts, requests, rounds)
  {
    PlayedShape(reply, table, question, web, attempts, dones, inputs, rounds, requests, s);
    RoundsExhausted(reply, attempts, requests, rounds, handled);
  }

  /** One iteration of the agent loop, with the loop's bookkeeping: the round
      either keeps the loop's invariant or ends the run. */
  method Step(computer: Computer, question: string, web: string, maxIter: nat, it: nat, reply: nat -> ApiReply,
              s0: LoopState, ghost start: seq<Event>, ghost attempts: seq<nat>, ghost dones: seq<bool>,
              ghost inputs: seq<seq<Value>>, ghost rounds: seq<seq<Value>>, ghost requests: seq<Request>,
              ghost handled: seq<Value>)
    returns (s: LoopState, sent: seq<Request>, done: bool, input: seq<Value>, round: seq<Value>, stop: Option<Outcome>)
    requires it == |attempts| < maxIter
    requires Playing(reply, computer.keyTable, question, web, attempts, dones, inputs, rounds, requests, handled, s0)
    requires computer.page.log == start + RunEvents(computer.keyTable, attempts, dones, rounds)
    modifies computer.page
    ensures stop.None? ==>
              Playing(reply, computer.keyTable, question, web, attempts + [|sent|], dones + [done], inputs + [input],
                      rounds + [round], requests + sent, handled + round, s)
    ensures stop.Some? ==>
              RunShape(reply, computer.keyTable, question, web, s.rawLogs, s.processedLogs, attempts + [|sent|],
                       requests + sent, dones + [done], rounds + [round], inputs + [input])
    ensures stop.Some? ==>
              RunEnding(reply, maxIter, stop.value, handled + round, attempts + [|sent|], requests + sent, rounds + [round])
    ensures computer.page.log == start + RunEvents(computer.keyTable, attempts + [|sent|], dones + [done], rounds + [round])
  {
    ghost var table, log := computer.keyTable, computer.page.log;
    s, sent, done, input, round, stop := PlayRound(computer, question, web, it, reply, s0, attempts, dones, inputs, rounds, requests);
    RunLogSnoc(table, start, log, computer.page.log, attempts, dones, rounds, |sent|, done, round);
    RoundBooked(reply, table, question, web, maxIter, attempts, dones, inputs, rounds, requests, handled,
                sent, done, input, round, stop, s0, s);
  }

  /** Both logs open with the task's first message and then hold what was
      logged from the answers to the requests sent. Every round made 1 to 20
      requests, sent as `RoundSent` says; only the first round's requests name
      no previous response. Round 0 used the first input and each later round
      the input the previous round's handling left. */
  ghost predicate RunShape(reply: nat -> ApiReply, table: map<string, string>, question: string, web: string,
                           rawLogs: seq<Value>, processedLogs: seq<Value>, attempts: seq<nat>, requests: seq<Request>,
                           dones: seq<bool>, rounds: seq<seq<Value>>, inputs: seq<seq<Value>>)
  {
    |rawLogs| >= 1 && rawLogs[0] == InitialItem(question, web) &&
    |processedLogs| >= 1 && processedLogs[0] == InitialItem(question, web) &&
    processedLogs == [InitialItem(question, web)] + Logged(reply, |requests|).0 &&
    rawLogs == [InitialItem(question, web)] + Logged(reply, |requests|).1 &&
    (forall i :: 0 <= i < |attempts| ==> 1 <= attempts[i] <= MaxRetries) &&
    |requests| == RoundStart(attempts, |attempts|) &&
    (|attempts| > 0 ==> forall i :: 0 <= i < |requests| ==> (requests[i].previous.None? <==> i < attempts[0])) &&
    RoundsSent(reply, attempts, dones, inputs, requests) &&
    |rounds| == |attempts| &&
    InputsChain(table, FirstInput(question, web, ShotPath(0)), rounds, inputs)
  }

  /** There are at most `maxIter` rounds, exactly `maxIter` when the run ran
      out. Every round but the last handled the whole output list of its last
      answer, and the last handled a prefix of it (all of it when the run ran
      out). A crash for an unbound response means no answer came back; a
      crash for a missing output list means the last answer had none. The
      items handled are the rounds' items in order; none but the last is a
      message, the run is answered exactly by a last message, and a last
      message never leaves the run exhausted. */
  ghost predicate RunEnding(reply: nat -> ApiReply, maxIter: nat, outcome: Outcome, handled: seq<Value>,
                            attempts: seq<nat>, requests: seq<Request>, rounds: seq<seq<Value>>)
  {
    |attempts| <= maxIter && |attempts| == |rounds| &&
    (outcome.Exhausted? ==> |attempts| == maxIter) &&
    (rounds != [] ==> OutputsHandled(reply, attempts[..|attempts| - 1], rounds[..|rounds| - 1])) &&
    (rounds != [] && RoundOutput(reply, |requests|).Some? ==> rounds[|rounds| - 1] <= RoundOutput(reply, |requests|).value) &&
    (outcome.Exhausted? ==> OutputsHandled(reply, attempts, rounds)) &&
    (outcome == Crashed(NameError("response")) ==> LastReplied(reply, |requests|).None?) &&
    (outcome == Crashed(ValueError) ==> RoundOutput(reply, |requests|).None?) &&
    handled == Flatten(rounds) &&
    (forall i :: 0 <= i < |handled| - 1 ==> !HasType(handled[i], "message")) &&
    (outcome.Answered? ==> handled != [] && HasType(handled[|handled| - 1], "message")) &&
    (handled != [] && HasType(handled[|handled| - 1], "message") ==> !outcome.Exhausted?)
  }

  /** After the last round, every round handled the whole output list of its
      last answer. */
  lemma RoundsExhausted(reply: nat -> ApiReply, attempts: seq<nat>, requests: seq<Request>, rounds: seq<seq<Value>>,
                        handled: seq<Value>)
    requires OutputsHandled(reply, attempts, rounds) && |requests| == RoundStart(attempts, |attempts|)
    requires forall i :: 0 <= i < |handled| ==> !HasType(handled[i], "message")
    ensures rounds != [] ==> OutputsHandled(reply, attempts[..|attempts| - 1], rounds[..|rounds| - 1])
    ensures rounds != [] && RoundOutput(reply, |requests|).Some? ==> rounds[|rounds| - 1] <= RoundOutput(reply, |requests|).value
    ensures forall i :: 0 <= i < |handled| - 1 ==> !HasType(handled[i], "message")
    ensures !(handled != [] && HasType(handled[|handled| - 1], "message"))
  {
  }

  /** The rounds played so far have the shape a run promises. */
  lemma PlayedShape(reply: nat -> ApiReply, table: map<string, string>, question: string, web: string,
                    attempts: seq<nat>, dones: seq<bool>, inputs: seq<seq<Value>>, rounds: seq<seq<Value>>,
                    requests: seq<Request>, s: LoopState)
    requires Played(reply, table, question, web, attempts, dones, inputs, rounds, requests, s)
    ensures RunShape(reply, table, question, web, s.rawLogs, s.processedLogs, attempts, requests, dones, rounds, inputs)
  {
  }

  /** The bookkeeping of one round of the loop, given the rounds before it:
      a round that does not stop the run leaves the loop's invariant for the
      next; one that stops it ends the run with its outcome. */
  lemma RoundBooked(reply: nat -> ApiReply, table: map<string, string>, question: string, web: string, maxIter: nat,
                    attempts: seq<nat>, dones: seq<bool>, inputs: seq<seq<Value>>, rounds: seq<seq<Value>>,
                    requests: seq<Request>, handled: seq<Value>, sent: seq<Request>, done: bool,
                    input: seq<Value>, round: seq<Value>, stop: Option<Outcome>, s0: LoopState, s: LoopState)
    requires |attempts| < maxIter
    requires Playing(reply, table, question, web, attempts, dones, inputs, rounds, requests, handled, s0)
    requires Played(reply, table, question, web, attempts + [|sent|], dones + [done], inputs + [input],
                    rounds + [round], requests + sent, s)
    requires RoundPlayed(reply, |requests + sent|, s, round, stop)
    ensures stop.None? ==>
              Playing(reply, table, question, web, attempts + [|sent|], dones + [done], inputs + [input],
                      rounds + [round], requests + sent, handled + round, s)
    ensures stop.Some? ==>
              RunShape(reply, table, question, web, s.rawLogs, s.processedLogs, attempts + [|sent|], requests + sent,
                       dones + [done], rounds + [round], inputs + [input])
    ensures stop.Some? ==>
              RunEnding(reply, maxIter, stop.value, handled + round, attempts + [|sent|], requests + sent, rounds + [round])
  {
    if stop.None? {
      RoundKeepsPlaying(reply, table, question, web, attempts, dones, inputs, rounds, requests, handled,
                        sent, done, input, round, s);
    } else {
      PlayedShape(reply, table, question, web, attempts + [|sent|], dones + [done], inputs + [input],
                  rounds + [round], requests + sent, s);
      RoundEndsRun(reply, maxIter, attempts, rounds, requests + sent, handled, |sent|, round, s, stop.value);
    }
  }

  /** A round that does not stop the run keeps the loop's invariant. */
  lemma RoundKeepsPlaying(reply: nat -> ApiReply, table: map<string, string>, question: string, web: string,
                          attempts: seq<nat>, dones: seq<bool>, inputs: seq<seq<Value>>, rounds: seq<seq<Value>>,
                          requests: seq<Request>, handled: seq<Value>, sent: seq<Request>, done: bool,
                          input: seq<Value>, round: seq<Value>, s: LoopState)
    requires |attempts| == |rounds|
    requires OutputsHandled(reply, attempts, rounds) && handled == Flatten(rounds)
    requires forall i :: 0 <= i < |handled| ==> !HasType(handled[i], "message")
    requires Played(reply, table, question, web, attempts + [|sent|], dones + [done], inputs + [input],
                    rounds + [round], requests + sent, s)
    requires RoundPlayed(reply, |requests + sent|, s, round, None)
    ensures Playing(reply, table, question, web, attempts + [|sent|], dones + [done], inputs + [input],
                    rounds + [round], requests + sent, handled + round, s)
  {
    RoundContinues(reply, attempts, rounds, requests, handled, sent, round, s);
  }

  /** A round that stops the run ends it with the round's outcome. */
  lemma RoundEndsRun(reply: nat -> ApiReply, maxIter: nat, attempts: seq<nat>, rounds: seq<seq<Value>>,
                     requests': seq<Request>, handled: seq<Value>, a: nat, round: seq<Value>, s: LoopState,
                     outcome: Outcome)
    requires |attempts| < maxIter && |attempts| == |rounds|
    requires OutputsHandled(reply, attempts, rounds) && handled == Flatten(rounds)
    requires forall i :: 0 <= i < |handled| ==> !HasType(handled[i], "message")
    requires RoundPlayed(reply, |requests'|, s, round, Some(outcome))
    ensures RunEnding(reply, maxIter, outcome, handled + round, attempts + [a], requests', rounds + [round])
  {
    RoundStops(reply, maxIter, attempts, rounds, a, round, attempts + [a], rounds + [round], requests', s, outcome);
    StopHandled(rounds, handled, round, rounds + [round], handled + round, outcome);
  }

  /** A round that does not stop the run handled the whole output list of its
      last answer and no message. */
  lemma RoundContinues(reply: nat -> ApiReply, attempts: seq<nat>, rounds: seq<seq<Value>>, requests: seq<Request>,
                       handled: seq<Value>, sent: seq<Request>, round: seq<Value>, s: LoopState)
    requires |attempts| == |rounds| && |requests + sent| == RoundStart(attempts + [|sent|], |attempts| + 1)
    requires OutputsHandled(reply, attempts, rounds) && handled == Flatten(rounds)
    requires forall i :: 0 <= i < |handled| ==> !HasType(handled[i], "message")
    requires RoundPlayed(reply, |requests + sent|, s, round, None)
    ensures s.response.Some? && OutputsHandled(reply, attempts + [|sent|], rounds + [round])
    ensures handled + round == Flatten(rounds + [round])
    ensures forall i :: 0 <= i < |handled + round| ==> !HasType((handled + round)[i], "message")
  {
    FlattenSnoc(rounds, round);
    OutputsHandledSnoc(reply, attempts, rounds, |sent|, round);
  }

  /** A round that stops the run ends it with the round's outcome:
      `attempts'` and `rounds'` are the run's values once the round is added,
      and `requests'` all the requests sent. */
  lemma RoundStops(reply: nat -> ApiReply, maxIter: nat, attempts: seq<nat>, rounds: seq<seq<Value>>,
                   a: nat, round: seq<Value>, attempts': seq<nat>, rounds': seq<seq<Value>>, requests': seq<Request>,
                   s: LoopState, outcome: Outcome)
    requires |attempts| < maxIter && |attempts| == |rounds|
    requires attempts' == attempts + [a] && rounds' == rounds + [round]
    requires OutputsHandled(reply, attempts, rounds)
    requires RoundPlayed(reply, |requests'|, s, round, Some(outcome))
    ensures |attempts'| <= maxIter && !outcome.Exhausted?
    ensures rounds' != [] ==> OutputsHandled(reply, attempts'[..|attempts'| - 1], rounds'[..|rounds'| - 1])
    ensures rounds' != [] && RoundOutput(reply, |requests'|).Some? ==> rounds'[|rounds'| - 1] <= RoundOutput(reply, |requests'|).value
    ensures outcome == Crashed(NameError("response")) ==> LastReplied(reply, |requests'|).None?
    ensures outcome == Crashed(ValueError) ==> RoundOutput(reply, |requests'|).None?
  {
    assert attempts'[..|attempts|] == attempts && rounds'[..|rounds|] == rounds;
  }

  /** The items a stopping round leaves handled: the rounds' items in order,
      none but the last a message, and a message last when it answered. */
  lemma StopHandled(rounds: seq<seq<Value>>, handled: seq<Value>, round: seq<Value>, rounds': seq<seq<Value>>,
                    handled': seq<Value>, outcome: Outcome)
    requires rounds' == rounds + [round] && handled' == handled + round && handled == Flatten(rounds)
    requires forall i :: 0 <= i < |handled| ==> !HasType(handled[i], "message")
    requires forall i :: 0 <= i < |round| - 1 ==> !HasType(round[i], "message")
    requires outcome == Answered ==> round != [] && HasType(round[|round| - 1], "message")
    ensures handled' == Flatten(rounds')
    ensures forall i :: 0 <= i < |handled'| - 1 ==> !HasType(handled'[i], "message")
    ensures outcome.Answered? ==> handled' != [] && HasType(handled'[|handled'| - 1], "message")
  {
    FlattenSnoc(rounds, round);
  }

  /** What one round leaves for the run after `n` requests in all: a round
      that does not stop handled the whole output list of the last answer
      and no message; otherwise it handled a prefix of that list, and it stops
      with a crash for an unbound response only when no answer came back, with
      one for a missing output list only when the last answer had none, and
      answered only at a message. */
  ghost predicate RoundPlayed(reply: nat -> ApiReply, n: nat, s: LoopState, round: seq<Value>, stop: Option<Outcome>) {
    (stop.None? ==> s.response.Some? && RoundOutput(reply, n) == Some(round)) &&
    (stop.None? ==> forall i :: 0 <= i < |round| ==> !HasType(round[i], "message")) &&
    (RoundOutput(reply, n).Some? ==>
       round <= RoundOutput(reply, n).value) &&
    (stop.Some? ==> stop.value.Answered? || stop.value.Crashed?) &&
    (stop == Some(Crashed(NameError("response"))) ==> LastReplied(reply, n).None?) &&
    (stop == Some(Crashed(ValueError)) ==> RoundOutput(reply, n).None?) &&
    (forall i :: 0 <= i < |round| - 1 ==> !HasType(round[i], "message")) &&
    (stop == Some(Answered) ==> round != [] && HasType(round[|round| - 1], "message"))
  }

  /** What the rounds played so far leave behind: the requests of each round,
      the loop state tracking the logged answers, and the chain of inputs. */
  ghost predicate Played(reply: nat -> ApiReply, table: map<string, string>, question: string, web: string,
                         attempts: seq<nat>, dones: seq<bool>, inputs: seq<seq<Value>>, rounds: seq<seq<Value>>,
                         requests: seq<Request>, s: LoopState)
  {
    Sent(reply, question, web, attempts, dones, inputs, requests, s) &&
    Chained(table, question, web, attempts, rounds, inputs, s.input)
  }

  /** The requests of the rounds played so far: 1 to 20 a round, sent as
      `RoundSent` says, only the first round's naming no previous response;
      the loop state tracks what was logged from their answers. */
  ghost predicate Sent(reply: nat -> ApiReply, question: string, web: string, attempts: seq<nat>, dones: seq<bool>,
                       inputs: seq<seq<Value>>, requests: seq<Request>, s: LoopState)
  {
    (forall i :: 0 <= i < |attempts| ==> 1 <= attempts[i] <= MaxRetries) &&
    RoundsSent(reply, attempts, dones, inputs, requests) &&
    Tracks(s, question, web, reply) && s.calls == |requests| &&
    |requests| == RoundStart(attempts, |attempts|) &&
    (|attempts| > 0 ==> forall i :: 0 <= i < |requests| ==> (requests[i].previous.None? <==> i < attempts[0]))
  }

  /** The inputs of the rounds played so far: the first input, then each the
      input the previous round's handling left; `input` is the next round's. */
  ghost predicate Chained(table: map<string, string>, question: string, web: string, attempts: seq<nat>,
                          rounds: seq<seq<Value>>, inputs: seq<seq<Value>>, input: seq<Value>)
  {
    |rounds| == |attempts| &&
    InputsChain(table, FirstInput(question, web, ShotPath(0)), rounds, inputs) &&
    (|attempts| > 0 ==> input == NextInput(table, rounds[|attempts| - 1], ShotPath(|attempts|), inputs[|attempts| - 1]))
  }

  /** One round of the agent loop: the retried request, then, when the last
      answer has an output list, the handling of its items. The round stops
      the run with a crash when no answer came back or it has no output list,
      or with the outcome of the handling. */
  method PlayRound(computer: Computer, question: string, web: string, it: nat, reply: nat -> ApiReply, s0: LoopState,
                   ghost attempts: seq<nat>, ghost dones: seq<bool>, ghost inputs: seq<seq<Value>>,
                   ghost rounds: seq<seq<Value>>, ghost requests: seq<Request>)
    returns (s: LoopState, sent: seq<Request>, done: bool, input: seq<Value>, round: seq<Value>, stop: Option<Outcome>)
    requires it == |attempts|
    requires Played(reply, computer.keyTable, question, web, attempts, dones, inputs, rounds, requests, s0)
    requires it > 0 ==> s0.response.Some?
    modifies computer.page
    ensures Played(reply, computer.keyTable, question, web, attempts + [|sent|], dones + [done], inputs + [input],
                   rounds + [round], requests + sent, s)
    ensures RoundPlayed(reply, |requests + sent|, s, round, stop)
    ensures computer.page.log == old(computer.page.log)
              + (RoundEvents(it, |sent|, done) + HandleEvents(computer.keyTable, round, ShotPath(it + 1)))
  {
    ghost var table := computer.keyTable;
    var s1, input';
    s1, sent, done := RequestRound(computer, question, web, it, reply, s0);
    input := s1.input;
    stop, round, input' := HandleResponse(computer, s1.response, it, input);
    s := s1.(input := input');
    PlayedSnoc(reply, table, question, web, attempts, dones, inputs, rounds, requests, s0, s1, sent, done, round, s);
    AppendAssoc(old(computer.page.log), RoundEvents(it, |sent|, done), HandleEvents(table, round, ShotPath(it + 1)));
  }

  /** What follows a round's requests: no answer at all leaves `response`
      unbound (a NameError), an answer without an output list is a
      ValueError, and otherwise the items of the output list are handled. */
  method HandleResponse(computer: Computer, response: Option<(string, Option<seq<Value>>)>, it: nat, input0: seq<Value>)
    returns (stop: Option<Outcome>, round: seq<Value>, input: seq<Value>)
    modifies computer.page
    ensures stop.None? ==> response.Some? && response.value.1 == Some(round)
    ensures stop.None? ==> forall i :: 0 <= i < |round| ==> !HasType(round[i], "message")
    ensures response.Some? && response.value.1.Some? ==>
              round <= response.value.1.value
    ensures stop.Some? ==> stop.value.Answered? || stop.value.Crashed?
    ensures stop == Some(Crashed(NameError("response"))) ==> response.None?
    ensures stop == Some(Crashed(ValueError)) ==> response.Some? && response.value.1.None?
    ensures forall i :: 0 <= i < |round| - 1 ==> !HasType(round[i], "message")
    ensures stop == Some(Answered) ==> round != [] && HasType(round[|round| - 1], "message")
    ensures input == NextInput(computer.keyTable, round, ShotPath(it + 1), input0)
    ensures computer.page.log == old(computer.page.log) + HandleEvents(computer.keyTable, round, ShotPath(it + 1))
  {
    if response.None? || response.value.1.None? {
      round, input := [], input0;
      stop := Some(if response.None? then Crashed(NameError("response")) else Crashed(ValueError));
      assert HandleEvents(computer.keyTable, [], ShotPath(it + 1)) == [];
      return;
    }
    stop, round, input := HandleRound(computer, response.value.1.value, it, input0);
    if stop.Some? && stop.value.Crashed? {
      HandleErrorKinds(computer.keyTable, round[|round| - 1], ShotPath(it + 1));
    }
  }

  /** Handling an item fails only with a lookup, type or attribute error,
      never with the errors that report a missing answer. */
  lemma HandleErrorKinds(table: map<string, string>, item: Value, imgPath: string)
    ensures var r := HandleSpec(table, item, imgPath).0;
            r.Err? ==> r.error.KeyError? || r.error.IndexError? || r.error.TypeError? || r.error.AttributeError?
  {
    FirstTextErrors(item, "content");
    FirstTextErrors(item, "summary");
    var action := Subscript(item, "action");
    if action.Ok? {
      var kind := Subscript(action.value, "type");
      if kind.Ok? && kind.value.Str? {
        BindErrors(kind.value.s, Without(action.value.fields, "type"));
      }
    }
  }

  lemma FirstTextErrors(item: Value, field: string)
    ensures var r := FirstText(item, field);
            r.Err? ==> r.error.KeyError? || r.error.IndexError? || r.error.TypeError?
  {
  }

  lemma BindErrors(name: string, args: Dict)
    ensures var r := Bind(name, args);
            r.Err? ==> r.error.KeyError? || r.error.TypeError? || r.error.AttributeError?
  {
    match Get(args, "path")
    case Some(List(items)) => PathPointsErrors(items);
    case _ =>
  }

  lemma {:induction false} PathPointsErrors(items: seq<Value>)
    ensures var r := PathPoints(items);
            r.Err? ==> r.error.KeyError? || r.error.TypeError?
  {
    if items != [] {
      PathPointsErrors(items[1..]);
    }
  }

  lemma AppendAssoc3<T>(a: seq<T>, b: seq<T>, c: seq<T>, d: seq<T>)
    ensures a + b + (c + d) == a + (b + c + d)
  {
  }

  /** The rounds played so far, extended by one round whose requests left the
      loop state `s1` and whose handling of `round` left the input of `s`. */
  lemma PlayedSnoc(reply: nat -> ApiReply, table: map<string, string>, question: string, web: string,
                   attempts: seq<nat>, dones: seq<bool>, inputs: seq<seq<Value>>, rounds: seq<seq<Value>>,
                   requests: seq<Request>, s0: LoopState, s1: LoopState, sent: seq<Request>, done: bool,
                   round: seq<Value>, s: LoopState)
    requires Played(reply, table, question, web, attempts, dones, inputs, rounds, requests, s0)
    requires Tracks(s1, question, web, reply) && 1 <= |sent| <= MaxRetries && s1.calls == s0.calls + |sent|
    requires s1.input == if attempts == [] then FirstInput(question, web, ShotPath(0)) else s0.input
    requires RoundSent(reply, s0.calls, |attempts|, sent, s1.input, done)
    requires forall i :: 0 <= i < |sent| ==> (sent[i].previous.None? <==> |attempts| == 0)
    requires s == s1.(input := NextInput(table, round, ShotPath(|attempts| + 1), s1.input))
    ensures Played(reply, table, question, web, attempts + [|sent|], dones + [done], inputs + [s1.input],
                   rounds + [round], requests + sent, s)
    ensures LastReplied(reply, |requests + sent|) == s.response
    ensures RoundOutput(reply, |requests + sent|) == if s.response.None? then None else s.response.value.1
  {
    SentSnoc(reply, question, web, attempts, dones, inputs, requests, s0, s1, sent, done, s);
    ChainedSnoc(table, question, web, attempts, rounds, inputs, s0.input, |sent|, round, s1.input, s.input);
  }

  /** The requests of one more round extend those of the rounds before it. */
  lemma SentSnoc(reply: nat -> ApiReply, question: string, web: string, attempts: seq<nat>, dones: seq<bool>,
                 inputs: seq<seq<Value>>, requests: seq<Request>, s0: LoopState, s1: LoopState, sent: seq<Request>,
                 done: bool, s: LoopState)
    requires Sent(reply, question, web, attempts, dones, inputs, requests, s0)
    requires Tracks(s1, question, web, reply) && 1 <= |sent| <= MaxRetries && s1.calls == s0.calls + |sent|
    requires RoundSent(reply, s0.calls, |attempts|, sent, s1.input, done)
    requires forall i :: 0 <= i < |sent| ==> (sent[i].previous.None? <==> |attempts| == 0)
    requires s == s1.(input := s.input)
    ensures Sent(reply, question, web, attempts + [|sent|], dones + [done], inputs + [s1.input], requests + sent, s)
    ensures LastReplied(reply, |requests + sent|) == s.response
    ensures RoundOutput(reply, |requests + sent|) == if s.response.None? then None else s.response.value.1
  {
    RequestsBooked(reply, question, web, attempts, dones, inputs, requests, s0, s1, sent, done);
    AttemptsSnoc(attempts, |sent|);
  }

  lemma AttemptsSnoc(attempts: seq<nat>, n: nat)
    requires forall i :: 0 <= i < |attempts| ==> 1 <= attempts[i] <= MaxRetries
    requires 1 <= n <= MaxRetries
    ensures forall i :: 0 <= i < |attempts + [n]| ==> 1 <= (attempts + [n])[i] <= MaxRetries
  {
  }

  /** The input a round leaves extends the chain of inputs. */
  lemma ChainedSnoc(table: map<string, string>, question: string, web: string, attempts: seq<nat>,
                    rounds: seq<seq<Value>>, inputs: seq<seq<Value>>, input0: seq<Value>, a: nat, round: seq<Value>,
                    input: seq<Value>, next: seq<Value>)
    requires Chained(table, question, web, attempts, rounds, inputs, input0)
    requires input == if attempts == [] then FirstInput(question, web, ShotPath(0)) else input0
    requires next == NextInput(table, round, ShotPath(|attempts| + 1), input)
    ensures Chained(table, question, web, attempts + [a], rounds + [round], inputs + [input], next)
  {
    InputsChainSnoc(table, FirstInput(question, web, ShotPath(0)), rounds, inputs, round, input);
    assert (rounds + [round])[|attempts|] == round && (inputs + [input])[|attempts|] == input;
  }

  /** The ghost bookkeeping of one round's requests: the round joins the
      rounds sent so far, the call count is the new round start, and the
      loop state's logs and answer are those of the requests sent so far. */
  lemma RequestsBooked(reply: nat -> ApiReply, question: string, web: string,
                       attempts: seq<nat>, dones: seq<bool>, inputs: seq<seq<Value>>, requests: seq<Request>,
                       s0: LoopState, s: LoopState, sent: seq<Request>, done: bool)
    requires RoundsSent(reply, attempts, dones, inputs, requests)
    requires s0.calls == |requests| == RoundStart(attempts, |attempts|)
    requires |attempts| > 0 ==> forall i :: 0 <= i < |requests| ==> (requests[i].previous.None? <==> i < attempts[0])
    requires Tracks(s, question, web, reply) && s.calls == s0.calls + |sent|
    requires RoundSent(reply, s0.calls, |attempts|, sent, s.input, done)
    requires forall i :: 0 <= i < |sent| ==> (sent[i].previous.None? <==> |attempts| == 0)
    ensures RoundsSent(reply, attempts + [|sent|], dones + [done], inputs + [s.input], requests + sent)
    ensures s.calls == |requests + sent| == RoundStart(attempts + [|sent|], |attempts| + 1)
    ensures forall i :: 0 <= i < |requests + sent| ==>
              ((requests + sent)[i].previous.None? <==> i < (attempts + [|sent|])[0])
    ensures s.processedLogs == [InitialItem(question, web)] + Logged(reply, |requests + sent|).0
    ensures s.rawLogs == [InitialItem(question, web)] + Logged(reply, |requests + sent|).1
    ensures LastReplied(reply, |requests + sent|) == s.response
    ensures RoundOutput(reply, |requests + sent|) == if s.response.None? then None else s.response.value.1
  {
    RoundRequests(requests, sent, attempts, |attempts|);
    RoundsSentSnoc(reply, attempts, dones, inputs, requests, sent, s.input, done);
  }

  /** Appending a round's requests keeps the rule that exactly the first
      round's requests name no previous response. */
  lemma RoundRequests(requests: seq<Request>, sent: seq<Request>, attempts: seq<nat>, it: nat)
    requires it == |attempts| && |requests| == RoundStart(attempts, |attempts|)
    requires it > 0 ==> forall i :: 0 <= i < |requests| ==> (requests[i].previous.None? <==> i < attempts[0])
    requires forall i :: 0 <= i < |sent| ==> (sent[i].previous.None? <==> it == 0)
    ensures |requests + sent| == RoundStart(attempts + [|sent|], |attempts| + 1)
    ensures forall i :: 0 <= i < |requests + sent| ==>
              ((requests + sent)[i].previous.None? <==> i < (attempts + [|sent|])[0])
  {
    RoundStartSnoc(attempts, |sent|, |attempts|);
    if it > 0 {
      RoundStartAtLeastFirst(attempts, |attempts|);
    }
  }

  /** A log holding the events of the rounds so far, extended by one more
      round's events, holds the events of the rounds including that one. */
  lemma RunLogSnoc(table: map<string, string>, start: seq<Event>, log: seq<Event>, log': seq<Event>,
                   attempts: seq<nat>, dones: seq<bool>, rounds: seq<seq<Value>>, a: nat, d: bool, round: seq<Value>)
    requires |attempts| == |dones| == |rounds|
    requires log == start + RunEvents(table, attempts, dones, rounds)
    requires log' == log + (RoundEvents(|attempts|, a, d) + HandleEvents(table, round, ShotPath(|attempts| + 1)))
    ensures log' == start + RunEvents(table, attempts + [a], dones + [d], rounds + [round])
  {
    RunEventsSnoc(table, attempts, dones, rounds, a, d, round);
    AppendAssoc3(start, RunEvents(table, attempts, dones, rounds), RoundEvents(|attempts|, a, d),
                 HandleEvents(table, round, ShotPath(|attempts| + 1)));
  }

  lemma RunEventsSnoc(table: map<string, string>, attempts: seq<nat>, dones: seq<bool>, rounds: seq<seq<Value>>,
                      a: nat, d: bool, round: seq<Value>)
    requires |attempts| == |dones| == |rounds|
    ensures RunEvents(table, attempts + [a], dones + [d], rounds + [round])
         == RunEvents(table, attempts, dones, rounds) + RoundEvents(|attempts|, a, d)
            + HandleEvents(table, round, ShotPath(|attempts| + 1))
  {
    assert (attempts + [a])[..|attempts|] == attempts;
    assert (dones + [d])[..|attempts|] == dones;
    assert (rounds + [round])[..|attempts|] == rounds;
  }
}

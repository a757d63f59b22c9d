/** The step-visualisation helpers: reading a UI-TARS action string back into
    its verb and keyword arguments, accumulating the overlay text and the
    action centres of one screenshot's actions, and the crop box of the
    zoomed view around an action. The drawing itself is not modelled. */
module Visualization {
  import opened Common
  import Escaping
  import MapAction
  import Json

  // ---------------------------------------------------------------------------
  // parse_action_string

  predicate NotNewline(c: char) { c != '\n' }
  predicate NotSingleQuote(c: char) { c != '\'' }
  predicate NotDoubleQuote(c: char) { c != '"' }

  /** The last index in [lo, hi) holding ')'. */
  function LastCloseParen(s: string, lo: nat, hi: nat): (r: Option<nat>)
    requires lo <= hi <= |s|
    ensures r.Some? ==> lo <= r.value < hi && s[r.value] == ')'
    ensures r.Some? ==> forall k :: r.value < k < hi ==> s[k] != ')'
    ensures r.None? ==> forall k :: lo <= k < hi ==> s[k] != ')'
    decreases hi - lo
  {
    if lo == hi then None
    else if s[hi - 1] == ')' then Some(hi - 1)
    else LastCloseParen(s, lo, hi - 1)
  }

  /** `re.match(r"(\w+)\((.*)\)", s)`: the leading word, and the text between
      the parenthesis after it and the last ')' before the end of that line
      (`.` does not match a newline, and `.*` is greedy). */
  function MatchCall(s: string): (r: Option<(string, string)>)
    ensures r.Some? ==> r.value.0 != [] && forall k :: 0 <= k < |r.value.0| ==> IsWordChar(r.value.0[k])
    ensures r.Some? ==> forall k :: 0 <= k < |r.value.1| ==> r.value.1[k] != '\n'
    ensures r.Some? ==> |r.value.0| + |r.value.1| + 2 <= |s| && s[..|r.value.0|] == r.value.0
    ensures r.Some? ==> s[|r.value.0|] == '(' && s[|r.value.0| + 1 + |r.value.1|] == ')'
    ensures r.Some? ==> s[|r.value.0| + 1..|r.value.0| + 1 + |r.value.1|] == r.value.1
    ensures r.Some? ==> var n := |r.value.0|;
                        forall j :: n + 1 + |r.value.1| < j < RunEnd(s, n + 1, NotNewline) ==> s[j] != ')'
    ensures var n := RunEnd(s, 0, IsWordChar);
            r.Some? <==> 0 < n < |s| && s[n] == '(' &&
                         exists j :: n < j < RunEnd(s, n + 1, NotNewline) && s[j] == ')'
  {
    var n := RunEnd(s, 0, IsWordChar);
    if n == 0 || n == |s| || s[n] != '(' then None
    else
      var lineEnd := RunEnd(s, n + 1, NotNewline);
      match LastCloseParen(s, n + 1, lineEnd)
      case None => None
      case Some(k) =>
        assert forall j :: n + 1 <= j < k ==> NotNewline(s[j]);
        Some((s[..n], s[n + 1..k]))
  }

  /** One attempt of the pattern `(\w+)=(?:'([^']*)'|"([^"]*)")` at `i`: the
      key, the quoted value and where the match ends. A value is the maximal
      run of characters other than its own quote, so a backslash does not
      escape the quote. */
  function KvAt(s: string, i: nat): (r: Option<(string, string, nat)>)
    requires i <= |s|
    ensures r.Some? ==> i < r.value.2 <= |s|
    ensures r.Some? ==> r.value.0 != [] && forall k :: 0 <= k < |r.value.0| ==> IsWordChar(r.value.0[k])
    ensures r.Some? ==> var q := s[r.value.2 - 1];
                        (q == '\'' || q == '"') && forall k :: 0 <= k < |r.value.1| ==> r.value.1[k] != q
  {
    var j := RunEnd(s, i, IsWordChar);
    if j == i || j + 1 >= |s| || s[j] != '=' then None
    else
      assert forall k :: 0 <= k < |s[i..j]| ==> IsWordChar(s[i..j][k]);
      if s[j + 1] == '\'' then
        var e := RunEnd(s, j + 2, NotSingleQuote);
        if e == |s| then None
        else
          var v := s[j + 2..e];
          assert forall k :: 0 <= k < |v| ==> v[k] != '\'';
          assert s[e + 1 - 1] == '\'';
          Some((s[i..j], v, e + 1))
      else if s[j + 1] == '"' then
        var e := RunEnd(s, j + 2, NotDoubleQuote);
        if e == |s| then None
        else
          var v := s[j + 2..e];
          assert forall k :: 0 <= k < |v| ==> v[k] != '"';
          assert s[e + 1 - 1] == '"';
          Some((s[i..j], v, e + 1))
      else None
  }

  /** `re.findall` of the key/value pattern from `i`: a failed attempt moves
      one character on, a match resumes after itself. */
  function KvPairs(s: string, i: nat): (r: seq<(string, string)>)
    requires i <= |s|
    decreases |s| - i
  {
    if i == |s| then []
    else
      match KvAt(s, i)
      case Some(m) => [(m.0, m.1)] + KvPairs(s, m.2)
      case None => KvPairs(s, i + 1)
  }

  /** The argument dict filled from the pairs in order. */
  function ArgsOf(pairs: seq<(string, string)>): (args: map<string, string>)
  {
    if pairs == [] then map[]
    else ArgsOf(pairs[..|pairs| - 1])[pairs[|pairs| - 1].0 := pairs[|pairs| - 1].1]
  }

  /** Every key of the pairs is bound, and to the value of its LAST pair. */
  lemma {:induction false} ArgsOfLastWins(pairs: seq<(string, string)>, k: string)
    ensures k in ArgsOf(pairs) <==> exists i :: 0 <= i < |pairs| && pairs[i].0 == k
    ensures k in ArgsOf(pairs) ==>
              exists i :: 0 <= i < |pairs| && pairs[i] == (k, ArgsOf(pairs)[k]) &&
                          forall j :: i < j < |pairs| ==> pairs[j].0 != k
    decreases |pairs|
  {
    if pairs != [] {
      var init, last := pairs[..|pairs| - 1], pairs[|pairs| - 1];
      ArgsOfLastWins(init, k);
      if last.0 == k {
        assert pairs[|pairs| - 1] == (k, ArgsOf(pairs)[k]);
      } else if k in ArgsOf(init) {
        var i :| 0 <= i < |init| && init[i] == (k, ArgsOf(init)[k]) && forall j :: i < j < |init| ==> init[j].0 != k;
        assert pairs[i] == init[i];
      }
      if exists i :: 0 <= i < |pairs| && pairs[i].0 == k {
        var i :| 0 <= i < |pairs| && pairs[i].0 == k;
        if i < |init| { assert init[i].0 == k; }
      }
      if exists i :: 0 <= i < |init| && init[i].0 == k {
        var i :| 0 <= i < |init| && init[i].0 == k;
        assert pairs[i].0 == k;
      }
    }
  }

  /** parse_action_string: the verb and its keyword arguments, or None (the
      source's `(None, None)`) when the text is not a call. */
  function ParseAction(s: string): (r: Option<(string, map<string, string>)>)
    ensures r.Some? <==> MatchCall(s).Some?
    ensures r.Some? ==> r.value.0 == MatchCall(s).value.0 && r.value.0 != []
  {
    match MatchCall(s)
    case None => None
    case Some(m) => Some((m.0, ArgsOf(KvPairs(m.1, 0))))
  }

  // ---------------------------------------------------------------------------
  // Points and boxes inside argument values

  /** `<point>(\d+)\s(\d+)</point>` at `i`. */
  function PointAt(s: string, i: nat): (r: Option<(nat, nat)>)
    requires i <= |s|
  {
    if !StartsWith(s[i..], "<point>") then None
    else
      var a := i + 7;
      var e1 := RunEnd(s, a, IsDigit);
      if e1 == a || e1 == |s| || !IsSpace(s[e1]) then None
      else
        var e2 := RunEnd(s, e1 + 1, IsDigit);
        if e2 == e1 + 1 || !StartsWith(s[e2..], "</point>") then None
        else Some((DigitsValue(s[a..e1]), DigitsValue(s[e1 + 1..e2])))
  }

  /** Where `re.search` of the point pattern first matches from `i`. */
  function PointPosition(s: string, i: nat): (r: Option<nat>)
    requires i <= |s|
    ensures r.Some? ==> i <= r.value <= |s| && PointAt(s, r.value).Some?
    ensures forall k :: i <= k <= |s| && (r.None? || k < r.value) ==> PointAt(s, k).None?
    decreases |s| - i
  {
    if PointAt(s, i).Some? then Some(i)
    else if i == |s| then None
    else PointPosition(s, i + 1)
  }

  /** `re.search` of the point pattern: the point at the first position where
      it matches. */
  function SearchPoint(s: string, i: nat): (r: Option<(nat, nat)>)
    requires i <= |s|
    ensures r.Some? ==> exists j :: i <= j <= |s| && PointAt(s, j) == r &&
                                    forall k :: i <= k < j ==> PointAt(s, k).None?
    ensures r.None? ==> forall j :: i <= j <= |s| ==> PointAt(s, j).None?
  {
    match PointPosition(s, i)
    case Some(j) => PointAt(s, j)
    case None => None
  }

  predicate IsNumeral(c: char) { IsDigit(c) || c == '.' }

  /** `\(([0-9.]+),([0-9.]+)\)` at `i`. */
  function BoxAt(s: string, i: nat): (r: Option<(string, string)>)
    requires i <= |s|
    ensures r.Some? ==> forall k :: 0 <= k < |r.value.0| ==> IsNumeral(r.value.0[k])
    ensures r.Some? ==> forall k :: 0 <= k < |r.value.1| ==> IsNumeral(r.value.1[k])
  {
    if i == |s| || s[i] != '(' then None
    else
      var e1 := RunEnd(s, i + 1, IsNumeral);
      if e1 == i + 1 || e1 == |s| || s[e1] != ',' then None
      else
        var e2 := RunEnd(s, e1 + 1, IsNumeral);
        if e2 == e1 + 1 || e2 == |s| || s[e2] != ')' then None
        else
          assert forall k :: i + 1 <= k < e1 ==> IsNumeral(s[k]);
          assert forall k :: e1 + 1 <= k < e2 ==> IsNumeral(s[k]);
          Some((s[i + 1..e1], s[e1 + 1..e2]))
  }

  /** Where `re.search` of the box pattern first matches from `i`. */
  function BoxPosition(s: string, i: nat): (r: Option<nat>)
    requires i <= |s|
    ensures r.Some? ==> i <= r.value <= |s| && BoxAt(s, r.value).Some?
    ensures forall k :: i <= k <= |s| && (r.None? || k < r.value) ==> BoxAt(s, k).None?
    decreases |s| - i
  {
    if BoxAt(s, i).Some? then Some(i)
    else if i == |s| then None
    else BoxPosition(s, i + 1)
  }

  /** `re.search` of the box pattern: the first position where it matches. */
  function SearchBox(s: string, i: nat): (r: Option<(string, string)>)
    requires i <= |s|
    ensures r.Some? ==> forall k :: 0 <= k < |r.value.0| ==> IsNumeral(r.value.0[k])
    ensures r.Some? ==> forall k :: 0 <= k < |r.value.1| ==> IsNumeral(r.value.1[k])
    ensures r.Some? ==> exists j :: i <= j <= |s| && BoxAt(s, j) == r &&
                                    forall k :: i <= k < j ==> BoxAt(s, k).None?
    ensures r.None? ==> forall j :: i <= j <= |s| ==> BoxAt(s, j).None?
  {
    match BoxPosition(s, i)
    case Some(j) => BoxAt(s, j)
    case None => None
  }

  /** `int(float(g))` for a run of digits and dots: a ValueError unless it has
      some digit and at most one dot; otherwise the digits before the dot. */
  function TruncatedFloat(g: string): (r: Result<nat>)
    requires forall k :: 0 <= k < |g| ==> IsNumeral(g[k])
    ensures r.Ok? <==> (exists k :: 0 <= k < |g| && IsDigit(g[k])) &&
                       (forall k1, k2 :: 0 <= k1 < k2 < |g| && g[k1] == '.' ==> g[k2] != '.')
  {
    var d := RunEnd(g, 0, IsDigit);
    if d == |g| then
      if d == 0 then Err(ValueError) else assert IsDigit(g[0]); Ok(DigitsValue(g))
    else
      assert !IsDigit(g[d]) && IsNumeral(g[d]);
      var e := RunEnd(g, d + 1, IsDigit);
      if e < |g| then
        assert !IsDigit(g[e]) && IsNumeral(g[e]);
        Err(ValueError)
      else if d == 0 && e == d + 1 then
        assert forall k :: 0 <= k < |g| ==> g[k] == '.';
        Err(ValueError)
      else
        assert IsDigit(g[if d == 0 then d + 1 else 0]);
        Ok(DigitsValue(g[..d]))
  }

  /** A whole number written out, with or without a fraction, truncates to itself. */
  lemma TruncatedWhole(n: nat, frac: string)
    requires forall k :: 0 <= k < |frac| ==> IsDigit(frac[k])
    ensures forall k :: 0 <= k < |NatToString(n)| ==> IsNumeral(NatToString(n)[k])
    ensures TruncatedFloat(NatToString(n)) == Ok(n)
    ensures var g := NatToString(n) + "." + frac;
            (forall k :: 0 <= k < |g| ==> IsNumeral(g[k])) && TruncatedFloat(g) == Ok(n)
  {
    MapAction.NatToStringValue(n);
    TruncatedDigits(NatToString(n));
    TruncatedFraction(NatToString(n), frac);
  }

  lemma TruncatedDigits(w: string)
    requires w != [] && forall k :: 0 <= k < |w| ==> IsDigit(w[k])
    ensures forall k :: 0 <= k < |w| ==> IsNumeral(w[k])
    ensures TruncatedFloat(w) == Ok(DigitsValue(w))
  {
    assert RunEnd(w, 0, IsDigit) == |w|;
  }

  lemma TruncatedFraction(w: string, frac: string)
    requires w != [] && forall k :: 0 <= k < |w| ==> IsDigit(w[k])
    requires forall k :: 0 <= k < |frac| ==> IsDigit(frac[k])
    ensures var g := w + "." + frac;
            (forall k :: 0 <= k < |g| ==> IsNumeral(g[k])) && TruncatedFloat(g) == Ok(DigitsValue(w))
  {
    var g := w + "." + frac;
    assert g[|w|] == '.';
    assert forall k :: 0 <= k < |w| ==> g[k] == w[k];
    assert forall k :: |w| + 1 <= k < |g| ==> g[k] == frac[k - |w| - 1];
    MapAction.RunEndIsFirst(g, 0, |w|, IsDigit);
    assert RunEnd(g, |w| + 1, IsDigit) == |g|;
    assert g[..|w|] == w;
  }

  // ---------------------------------------------------------------------------
  // Action centres

  datatype CenterKind = ClickCenter | DragCenter | ScrollCenter

  /** What actions_visual records for zooming: the centre, and for strokes
      the start and end points. */
  datatype Center = Center(x: int, y: int, start: Option<(int, int)>, end: Option<(int, int)>, kind: CenterKind)

  const ClickVerbs: set<string> := {"click", "right_single", "left_double"}

  /** The centre of a click-like action: from its `point` argument if it has
      one, else from its `start_box`; no centre when the value does not match. */
  function ClickAt(args: map<string, string>): (r: Result<Option<Center>>)
    ensures r.Err? ==> "point" !in args && "start_box" in args && r.error == ValueError
    ensures r.Ok? && r.value.Some? ==>
              r.value.value.kind == ClickCenter && r.value.value.x >= 0 && r.value.value.y >= 0 &&
              r.value.value.start.None? && r.value.value.end.None?
  {
    if "point" in args then
      match SearchPoint(args["point"], 0)
      case Some(p) => Ok(Some(Center(p.0, p.1, None, None, ClickCenter)))
      case None => Ok(None)
    else if "start_box" in args then
      match SearchBox(args["start_box"], 0)
      case None => Ok(None)
      case Some(b) =>
        var x :- TruncatedFloat(b.0);
        var y :- TruncatedFloat(b.1);
        Ok(Some(Center(x, y, None, None, ClickCenter)))
    else Ok(None)
  }

  /** The two points of a drag, when both arguments hold a point. */
  function DragPoints(args: map<string, string>): (r: Option<((int, int), (int, int))>)
    ensures r.Some? ==> "start_point" in args && "end_point" in args
    ensures r.Some? ==> r.value.0.0 >= 0 && r.value.0.1 >= 0 && r.value.1.0 >= 0 && r.value.1.1 >= 0
  {
    if "start_point" in args && "end_point" in args then
      match (SearchPoint(args["start_point"], 0), SearchPoint(args["end_point"], 0))
      case (Some(p), Some(q)) => Some(((p.0, p.1), (q.0, q.1)))
      case _ => None
    else None
  }

  function Min(a: int, b: int): int { if a <= b then a else b }
  function Max(a: int, b: int): int { if a <= b then b else a }

  /** The integer midpoint `((ax + bx) // 2, (ay + by) // 2)`. */
  function Midpoint(a: (int, int), b: (int, int)): (m: (int, int))
    ensures Min(a.0, b.0) <= m.0 <= Max(a.0, b.0)
    ensures Min(a.1, b.1) <= m.1 <= Max(a.1, b.1)
    ensures a == b ==> m == a
  {
    ((a.0 + b.0) / 2, (a.1 + b.1) / 2)
  }

  function StrokeCenter(start: (int, int), end: (int, int), kind: CenterKind): Center {
    var m := Midpoint(start, end);
    Center(m.0, m.1, Some(start), Some(end), kind)
  }

  const ScrollDistance := 50

  /** Where the scroll arrow ends: 50 pixels from the start in the given
      direction; for any other direction the end point of an earlier stroke,
      which may not exist. */
  function ScrollEnd(start: (int, int), direction: string, stale: Option<(int, int)>): (r: Option<(int, int)>)
    ensures direction in {"down", "up", "left", "right"} ==>
              r.Some? && MapAction.Abs(r.value.0 - start.0) + MapAction.Abs(r.value.1 - start.1) == ScrollDistance
    ensures direction == "down" ==> r.value.1 > start.1
    ensures direction == "up" ==> r.value.1 < start.1
    ensures direction == "right" ==> r.value.0 > start.0
    ensures direction == "left" ==> r.value.0 < start.0
    ensures direction !in {"down", "up", "left", "right"} ==> r == stale
  {
    if direction == "down" then Some((start.0, start.1 + ScrollDistance))
    else if direction == "up" then Some((start.0, start.1 - ScrollDistance))
    else if direction == "right" then Some((start.0 + ScrollDistance, start.1))
    else if direction == "left" then Some((start.0 - ScrollDistance, start.1))
    else stale
  }

  /** The direction of a scroll action, "down" when it names none. */
  function ScrollDirectionOf(args: map<string, string>): string {
    if "direction" in args then args["direction"] else "down"
  }

  /** Type content as the overlay shows it: a written `\n` becomes a newline,
      and every newline then becomes a tab. */
  function Tabbed(content: string): (r: string)
    ensures '\n' !in r
  {
    Escaping.ReplaceChar(ReplaceAll(content, "\\n", "\n"), '\n', "\t")
  }

  // ---------------------------------------------------------------------------
  // actions_visual

  /** The overlay accumulated so far: the numbered verb lines, the text shown
      at the bottom, the action centres, and the end point of the last stroke. */
  datatype Overlay = Overlay(names: string, text: string, centers: seq<Center>, endPoint: Option<(int, int)>)

  function NameLine(i: nat, name: string): string {
    NatToString(i + 1) + ". " + name + "\n"
  }

  /** The effect of the action at index `i` on the overlay. */
  function StepOverlay(o: Overlay, i: nat, action: string, width: nat, height: nat): (r: Result<Overlay>)
    ensures ParseAction(action).None? ==> r == Ok(o)
    ensures r.Ok? && ParseAction(action).Some? ==> r.value.names == o.names + NameLine(i, ParseAction(action).value.0)
    ensures r.Ok? ==> |o.centers| <= |r.value.centers| <= |o.centers| + 1 && r.value.centers[..|o.centers|] == o.centers
  {
    match ParseAction(action)
    case None => Ok(o)
    case Some(p) => StepVerb(o.(names := o.names + NameLine(i, p.0)), i, p.0, p.1, width, height)
  }

  /** The effect of an action, once parsed into `name` and `args`, on
      everything but the verb lines. */
  function StepVerb(o: Overlay, i: nat, name: string, args: map<string, string>, width: nat, height: nat)
    : (r: Result<Overlay>)
    ensures r.Ok? ==> r.value.names == o.names
    ensures r.Ok? ==> |o.centers| <= |r.value.centers| <= |o.centers| + 1 && r.value.centers[..|o.centers|] == o.centers
  {
    if name in ClickVerbs then
      var c :- ClickAt(args);
      Ok(if c.Some? then o.(centers := o.centers + [c.value]) else o)
    else if name == "drag" then
      Ok(match DragPoints(args)
         case Some(d) => o.(endPoint := Some(d.1), centers := o.centers + [StrokeCenter(d.0, d.1, DragCenter)])
         case None => o)
    else if name == "scroll" then
      var start := (width / 2, height / 2);
      match ScrollEnd(start, ScrollDirectionOf(args), o.endPoint)
      case None => Err(NameError("end_point"))
      case Some(e) => Ok(o.(endPoint := Some(e), centers := o.centers + [StrokeCenter(start, e, ScrollCenter)]))
    else if name == "type" then
      Ok(if "content" in args then o.(text := o.text + NatToString(i + 1) + ". " + Tabbed(args["content"]) + "\n")
         else o)
    else if name == "hotkey" then
      if "key" in args then Ok(o.(text := args["key"])) else Err(KeyError("key"))
    else if name == "finished" then
      if "content" in args then Ok(o.(text := args["content"])) else Err(KeyError("content"))
    else Ok(o)
  }

  const EmptyOverlay := Overlay("", "", [], None)

  /** The overlay after the given actions, or the exception one of them raises. */
  function Visual(actions: seq<string>, width: nat, height: nat): Result<Overlay>
  {
    if actions == [] then Ok(EmptyOverlay)
    else
      var o :- Visual(actions[..|actions| - 1], width, height);
      StepOverlay(o, |actions| - 1, actions[|actions| - 1], width, height)
  }

  /** actions_visual without the drawing: the overlay of a screenshot's actions. */
  method ActionsVisual(actions: seq<string>, width: nat, height: nat) returns (r: Result<Overlay>)
    ensures r == Visual(actions, width, height)
  {
    var names, text, centers, endPoint := "", "", [], None;
    for i := 0 to |actions|
      invariant Visual(actions[..i], width, height) == Ok(Overlay(names, text, centers, endPoint))
    {
      ghost var o := Overlay(names, text, centers, endPoint);
      VisualPrefix(actions, i, o, width, height);
      var parsed := ParseAction(actions[i]);
      if parsed.None? {
        continue;
      }
      var name, args := parsed.value.0, parsed.value.1;
      names := names + NameLine(i, name);
      var drawn := DrawAction(Overlay(names, text, centers, endPoint), i, name, args, width, height);
      if drawn.Err? {
        ErrorSticks(actions, i + 1, width, height);
        return Err(drawn.error);
      }
      text, centers, endPoint := drawn.value.text, drawn.value.centers, drawn.value.endPoint;
    }
    assert actions[..|actions|] == actions;
    return Ok(Overlay(names, text, centers, endPoint));
  }

  /** The body of actions_visual's loop for a parsed action: records its
      centre or its text. */
  method DrawAction(o: Overlay, i: nat, name: string, args: map<string, string>, width: nat, height: nat)
    returns (r: Result<Overlay>)
    ensures r == StepVerb(o, i, name, args, width, height)
  {
    var text, centers, endPoint := o.text, o.centers, o.endPoint;
    if name in ClickVerbs {
      var c := ClickAt(args);
      if c.Err? {
        return Err(c.error);
      }
      if c.value.Some? {
        centers := centers + [c.value.value];
      }
    } else if name == "drag" {
      var d := DragPoints(args);
      if d.Some? {
        endPoint := Some(d.value.1);
        centers := centers + [StrokeCenter(d.value.0, d.value.1, DragCenter)];
      }
    } else if name == "scroll" {
      var start := (width / 2, height / 2);
      endPoint := ScrollEnd(start, ScrollDirectionOf(args), endPoint);
      if endPoint.None? {
        return Err(NameError("end_point"));
      }
      centers := centers + [StrokeCenter(start, endPoint.value, ScrollCenter)];
    } else if name == "type" {
      if "content" in args {
        text := text + NatToString(i + 1) + ". " + Tabbed(args["content"]) + "\n";
      }
    } else if name == "hotkey" {
      if "key" !in args {
        return Err(KeyError("key"));
      }
      text := args["key"];
    } else if name == "finished" {
      if "content" !in args {
        return Err(KeyError("content"));
      }
      text := args["content"];
    }
    return Ok(o.(text := text, centers := centers, endPoint := endPoint));
  }

  /** The overlay after one more action of a list. */
  lemma VisualPrefix(actions: seq<string>, i: nat, o: Overlay, width: nat, height: nat)
    requires i < |actions| && Visual(actions[..i], width, height) == Ok(o)
    ensures Visual(actions[..i + 1], width, height) ==
            match ParseAction(actions[i])
            case None => Ok(o)
            case Some(p) => StepVerb(o.(names := o.names + NameLine(i, p.0)), i, p.0, p.1, width, height)
  {
    assert actions[..i + 1][..i] == actions[..i];
  }

  /** An exception raised by one action ends the whole call. */
  lemma {:induction false} ErrorSticks(actions: seq<string>, i: nat, width: nat, height: nat)
    requires i <= |actions| && Visual(actions[..i], width, height).Err?
    ensures Visual(actions, width, height) == Visual(actions[..i], width, height)
    decreases |actions| - i
  {
    if i == |actions| {
      assert actions[..i] == actions;
    } else {
      assert actions[..i + 1][..i] == actions[..i];
      ErrorSticks(actions, i + 1, width, height);
    }
  }
  // ---------------------------------------------------------------------------
  // Properties of the overlay

  /** The verb lines alone: one for each action that parses, numbered by its
      position among all the actions, so a skipped action still uses up its
      number. */
  function NameLines(actions: seq<string>): string {
    if actions == [] then ""
    else
      NameLines(actions[..|actions| - 1]) +
      match ParseAction(actions[|actions| - 1])
      case Some(p) => NameLine(|actions| - 1, p.0)
      case None => ""
  }

  /** The verb lines of the overlay are exactly the numbered parseable
      actions, and there is at most one centre per action. */
  lemma {:induction false} OverlayNames(actions: seq<string>, width: nat, height: nat)
    requires Visual(actions, width, height).Ok?
    ensures Visual(actions, width, height).value.names == NameLines(actions)
    ensures |Visual(actions, width, height).value.centers| <= |actions|
  {
    if actions != [] {
      OverlayNames(actions[..|actions| - 1], width, height);
    }
  }

  /** A hotkey replaces the whole bottom text by its keys; a key-less
      hotkey raises a KeyError. */
  lemma HotkeyReplacesText(actions: seq<string>, a: string, width: nat, height: nat)
    requires Visual(actions, width, height).Ok?
    requires ParseAction(a).Some? && ParseAction(a).value.0 == "hotkey"
    ensures var args := ParseAction(a).value.1;
            var r := Visual(actions + [a], width, height);
            if "key" in args then r.Ok? && r.value.text == args["key"] else r == Err(KeyError("key"))
  {
    AppendStep(actions, a, width, height);
  }

  /** A type action adds one numbered line holding its content with every
      newline, written or raw, turned into a tab. */
  lemma TypeAddsLine(actions: seq<string>, a: string, width: nat, height: nat)
    requires Visual(actions, width, height).Ok?
    requires ParseAction(a).Some? && ParseAction(a).value.0 == "type"
    requires "content" in ParseAction(a).value.1
    ensures var r := Visual(actions + [a], width, height);
            var line := Tabbed(ParseAction(a).value.1["content"]);
            r.Ok? && r.value.text == Visual(actions, width, height).value.text + NatToString(|actions| + 1) + ". " + line + "\n" &&
            '\n' !in line
  {
    AppendStep(actions, a, width, height);
  }

  /** One more action applies its step to the overlay so far. */
  lemma AppendStep(actions: seq<string>, a: string, width: nat, height: nat)
    requires Visual(actions, width, height).Ok? && ParseAction(a).Some?
    ensures var o := Visual(actions, width, height).value;
            var p := ParseAction(a).value;
            Visual(actions + [a], width, height) ==
            StepVerb(o.(names := o.names + NameLine(|actions|, p.0)), |actions|, p.0, p.1, width, height)
  {
    assert (actions + [a])[..|actions|] == actions;
  }

  /** A scroll that names no direction is drawn as an arrow 50 pixels down
      from the centre of the screenshot. */
  lemma ScrollDefaultsDown(o: Overlay, i: nat, a: string, width: nat, height: nat)
    requires ParseAction(a).Some? && ParseAction(a).value.0 == "scroll"
    requires "direction" !in ParseAction(a).value.1
    ensures var r := StepOverlay(o, i, a, width, height);
            r.Ok? && |r.value.centers| == |o.centers| + 1 &&
            var c := r.value.centers[|o.centers|];
            c.kind == ScrollCenter && c.start == Some((width / 2, height / 2)) &&
            c.end == Some((width / 2, height / 2 + ScrollDistance)) && r.value.endPoint == c.end
  {
  }

  /** A scroll in none of the four directions reuses the end point of an
      earlier stroke; as the first stroke it raises, that point never having
      been set. */
  lemma UnknownScrollRaises(a: string, width: nat, height: nat)
    requires ParseAction(a).Some? && ParseAction(a).value.0 == "scroll"
    requires ScrollDirectionOf(ParseAction(a).value.1) !in {"down", "up", "left", "right"}
    ensures Visual([a], width, height) == Err(NameError("end_point"))
  {
    assert [a][..0] == [];
  }

  // ---------------------------------------------------------------------------
  // Reading back what the encoder writes

  lemma {:induction false} RunEndToEnd(s: string, i: nat, ok: char -> bool)
    requires i <= |s|
    requires forall k :: i <= k < |s| ==> ok(s[k])
    ensures RunEnd(s, i, ok) == |s|
    decreases |s| - i
  {
    if i < |s| {
      RunEndToEnd(s, i + 1, ok);
    }
  }

  /** `c` does not occur in `s`. */
  predicate NoneOf(s: string, c: char) {
    forall k :: 0 <= k < |s| ==> s[k] != c
  }

  lemma NoneOfConcat(a: string, b: string, c: char)
    requires NoneOf(a, c) && NoneOf(b, c)
    ensures NoneOf(a + b, c)
  {
    forall k | 0 <= k < |a + b| ensures (a + b)[k] != c {
      if k >= |a| { assert (a + b)[k] == b[k - |a|]; }
    }
  }

  lemma DigitsNoneOf(s: string, c: char)
    requires forall k :: 0 <= k < |s| ==> IsDigit(s[k])
    requires !IsDigit(c)
    ensures NoneOf(s, c)
  {
  }

  /** A verb followed by a one-line argument text in parentheses parses back
      into that verb and that text. */
  lemma MatchCallOf(name: string, args: string)
    requires name != [] && forall k :: 0 <= k < |name| ==> IsWordChar(name[k])
    requires NoneOf(args, '\n')
    ensures MatchCall(name + "(" + args + ")") == Some((name, args))
  {
    var s := name + "(" + args + ")";
    var n := |name|;
    assert forall k :: 0 <= k < n ==> s[k] == name[k];
    assert s[n] == '(';
    MapAction.RunEndIsFirst(s, 0, n, IsWordChar);
    assert forall k :: n + 1 <= k < |s| - 1 ==> s[k] == args[k - n - 1];
    RunEndToEnd(s, n + 1, NotNewline);
    assert s[..n] == name && s[n + 1..|s| - 1] == args;
  }

  /** The key/value pattern splits a quoted value at the first quote of its
      kind, even an escaped one: the value of `key='a\'b'` is `a\`. */
  lemma EscapedQuoteEndsValue(key: string, a: string, b: string)
    requires key != [] && forall k :: 0 <= k < |key| ==> IsWordChar(key[k])
    requires '\'' !in a
    ensures KvAt(key + "='" + a + "\\'" + b, 0) == Some((key, a + "\\", |key| + |a| + 4))
  {
    var s := key + "='" + a + "\\'" + b;
    var n := |key|;
    assert forall k :: 0 <= k < n ==> s[k] == key[k];
    assert s[n] == '=' && s[n + 1] == '\'';
    MapAction.RunEndIsFirst(s, 0, n, IsWordChar);
    assert forall k :: n + 2 <= k < n + 2 + |a| ==> s[k] == a[k - n - 2];
    assert s[n + 2 + |a|] == '\\' && s[n + 3 + |a|] == '\'';
    MapAction.RunEndIsFirst(s, n + 2, n + 3 + |a|, NotSingleQuote);
    assert s[..n] == key && s[n + 2..n + 3 + |a|] == a + "\\";
  }

  /** The point the encoder writes, `<point>x y</point>`, is found again
      with the same coordinates. */
  lemma PointReadsBack(x: nat, y: nat)
    ensures SearchPoint("<point>" + NatToString(x) + " " + NatToString(y) + "</point>", 0) == Some((x, y))
  {
    var xs, ys := NatToString(x), NatToString(y);
    var s := "<point>" + xs + " " + ys + "</point>";
    PointLayout(xs, ys);
    MapAction.NatToStringValue(x);
    MapAction.NatToStringValue(y);
    PointOfDigits(s, xs, ys);
    assert PointPosition(s, 0) == Some(0);
  }

  lemma PointLayout(xs: string, ys: string)
    ensures var s := "<point>" + xs + " " + ys + "</point>";
            var e1 := 7 + |xs|;
            var e2 := e1 + 1 + |ys|;
            |s| == e2 + 8 && s[..7] == "<point>" && s[7..e1] == xs && s[e1] == ' ' &&
            s[e1 + 1..e2] == ys && s[e2..] == "</point>"
  {
    var s := "<point>" + xs + " " + ys + "</point>";
    var A := "<point>" + xs;
    var B := A + " ";
    var C := B + ys;
    assert s == C + "</point>";
    assert s[..|C|] == C && C[..|B|] == B && B[..|A|] == A;
    assert s[..7] == A[..7];
    assert s[7..7 + |xs|] == A[7..];
    assert s[|C|..] == "</point>";
    assert s[|B|..|C|] == C[|B|..];
  }

  lemma PointOfDigits(s: string, xs: string, ys: string)
    requires xs != [] && forall k :: 0 <= k < |xs| ==> IsDigit(xs[k])
    requires ys != [] && forall k :: 0 <= k < |ys| ==> IsDigit(ys[k])
    requires var e1 := 7 + |xs|;
             var e2 := e1 + 1 + |ys|;
             |s| == e2 + 8 && s[..7] == "<point>" && s[7..e1] == xs && s[e1] == ' ' &&
             s[e1 + 1..e2] == ys && s[e2..] == "</point>"
    ensures PointAt(s, 0) == Some((DigitsValue(xs), DigitsValue(ys)))
  {
    var e1 := 7 + |xs|;
    var e2 := e1 + 1 + |ys|;
    assert StartsWith(s[0..], "<point>") by {
      assert s[0..][..7] == s[..7];
    }
    MapAction.RunOver(s, 7, xs, IsDigit);
    MapAction.RunOver(s, e1 + 1, ys, IsDigit);
    assert StartsWith(s[e2..], "</point>") by {
      assert s[e2..][..8] == s[e2..];
    }
    assert IsSpace(s[e1]);
    assert RunEnd(s, 7, IsDigit) == e1 && RunEnd(s, e1 + 1, IsDigit) == e2;
    assert s[7..e1] == xs && s[e1 + 1..e2] == ys;
  }


  /** A single key with a value in single quotes is read as exactly that pair. */
  lemma SinglePair(key: string, v: string)
    requires key != [] && forall k :: 0 <= k < |key| ==> IsWordChar(key[k])
    requires NoneOf(v, '\'')
    ensures KvPairs(key + "='" + v + "'", 0) == [(key, v)]
  {
    var s := key + "='" + v + "'";
    PairLayout(key, v);
    PairAt(s, key, v);
    assert KvPairs(s, |s|) == [];
  }

  lemma PairLayout(key: string, v: string)
    ensures var s := key + "='" + v + "'";
            var n := |key|;
            |s| == n + 3 + |v| && s[..n] == key && s[n] == '=' && s[n + 1] == '\'' &&
            s[n + 2..n + 2 + |v|] == v && s[|s| - 1] == '\''
  {
    var s := key + "='" + v + "'";
    var A := key + "='";
    var B := A + v;
    assert s == B + "'";
    assert s[..|B|] == B && B[..|A|] == A;
    assert s[..|key|] == A[..|key|];
    assert s[|A|..|B|] == B[|A|..];
  }

  lemma PairAt(s: string, key: string, v: string)
    requires key != [] && forall k :: 0 <= k < |key| ==> IsWordChar(key[k])
    requires NoneOf(v, '\'')
    requires var n := |key|;
             |s| == n + 3 + |v| && s[..n] == key && s[n] == '=' && s[n + 1] == '\'' &&
             s[n + 2..n + 2 + |v|] == v && s[|s| - 1] == '\''
    ensures KvAt(s, 0) == Some((key, v, |s|))
  {
    var n := |key|;
    assert forall k :: 0 <= k < n ==> s[k] == key[k];
    MapAction.RunEndIsFirst(s, 0, n, IsWordChar);
    assert forall k :: n + 2 <= k < n + 2 + |v| ==> s[k] == v[k - n - 2];
    MapAction.RunEndIsFirst(s, n + 2, n + 2 + |v|, NotSingleQuote);
  }

  /** The point argument the encoder writes, split into key and value. */
  lemma PointArgLayout(xs: string, ys: string)
    ensures "point='<point>" + xs + " " + ys + "</point>'"
         == "point" + "='" + ("<point>" + xs + " " + ys + "</point>") + "'"
  {
  }

  /** What the encoder writes for a click at a pixel, in the `<point>` form,
      the visualiser draws as one click centre at that very pixel. */
  lemma ClickReadsBack(button: Json.Value, x: nat, y: nat, width: nat, height: nat)
    ensures var a := MapAction.ClickVerb(button) + "(" + MapAction.PointArg(Json.Int(x), Json.Int(y), true) + ")";
            Visual([a], width, height) ==
            Ok(Overlay(NameLine(0, MapAction.ClickVerb(button)), "", [Center(x, y, None, None, ClickCenter)], None))
  {
    var verb := MapAction.ClickVerb(button);
    var a := verb + "(" + MapAction.PointArg(Json.Int(x), Json.Int(y), true) + ")";
    var v := "<point>" + NatToString(x) + " " + NatToString(y) + "</point>";
    ParseClick(verb, x, y);
    PointReadsBack(x, y);
    var o := EmptyOverlay.(names := NameLine(0, verb));
    ClickStep(o, verb, v, x, y, width, height);
    SingleAction(a, verb, map["point" := v], width, height);
    assert o.centers + [Center(x, y, None, None, ClickCenter)] == [Center(x, y, None, None, ClickCenter)];
  }

  /** The overlay of a single parseable action. */
  lemma SingleAction(a: string, verb: string, args: map<string, string>, width: nat, height: nat)
    requires ParseAction(a) == Some((verb, args))
    ensures Visual([a], width, height) == StepVerb(EmptyOverlay.(names := NameLine(0, verb)), 0, verb, args, width, height)
  {
    assert [a][..0] == [];
    assert EmptyOverlay.names + NameLine(0, verb) == NameLine(0, verb);
  }

  lemma ParseClick(verb: string, x: nat, y: nat)
    requires verb in {"click", "right_single", "left_double"}
    ensures var v := "<point>" + NatToString(x) + " " + NatToString(y) + "</point>";
            ParseAction(verb + "(" + MapAction.PointArg(Json.Int(x), Json.Int(y), true) + ")")
            == Some((verb, map["point" := v]))
  {
    var xs, ys := NatToString(x), NatToString(y);
    var v := "<point>" + xs + " " + ys + "</point>";
    var arg := "point" + "='" + v + "'";
    assert MapAction.PointArg(Json.Int(x), Json.Int(y), true) == "point='<point>" + xs + " " + ys + "</point>'";
    PointArgLayout(xs, ys);
    ClickVerbIsWord(verb);
    PointValuePlain(xs, ys, '\'');
    PointValuePlain(xs, ys, '\n');
    PointKey();
    NoneOfConcat("point" + "='", v, '\n');
    NoneOfConcat("point" + "='" + v, "'", '\n');
    MatchCallOf(verb, arg);
    SinglePair("point", v);
    assert ArgsOf([("point", v)]) == map["point" := v];
  }

  lemma PointKey()
    ensures "point" != [] && forall k :: 0 <= k < |"point"| ==> IsWordChar("point"[k])
    ensures NoneOf("point" + "='", '\n') && NoneOf("'", '\n')
  {
    assert "point" + "='" == "point='";
  }

  lemma PointValuePlain(xs: string, ys: string, c: char)
    requires forall k :: 0 <= k < |xs| ==> IsDigit(xs[k])
    requires forall k :: 0 <= k < |ys| ==> IsDigit(ys[k])
    requires c == '\'' || c == '\n'
    ensures NoneOf("<point>" + xs + " " + ys + "</point>", c)
  {
    DigitsNoneOf(xs, c);
    DigitsNoneOf(ys, c);
    assert NoneOf("<point>", c) && NoneOf(" ", c) && NoneOf("</point>", c);
    NoneOfConcat("<point>", xs, c);
    NoneOfConcat("<point>" + xs, " ", c);
    NoneOfConcat("<point>" + xs + " ", ys, c);
    NoneOfConcat("<point>" + xs + " " + ys, "</point>", c);
  }

  lemma ClickStep(o: Overlay, verb: string, v: string, x: nat, y: nat, width: nat, height: nat)
    requires verb in {"click", "right_single", "left_double"}
    requires SearchPoint(v, 0) == Some((x, y))
    ensures StepVerb(o, 0, verb, map["point" := v], width, height)
         == Ok(o.(centers := o.centers + [Center(x, y, None, None, ClickCenter)]))
  {
    ClickVerbIsWord(verb);
  }

  lemma ClickVerbIsWord(verb: string)
    requires verb in {"click", "right_single", "left_double"}
    ensures verb in ClickVerbs && verb != [] && forall k :: 0 <= k < |verb| ==> IsWordChar(verb[k])
  {
  }

  // ---------------------------------------------------------------------------
  // The zoomed view

  /** A crop rectangle `(left, top, right, bottom)`. */
  datatype Box = Box(left: int, top: int, right: int, bottom: int)

  const StrokePadding := 50

  /** The crop box around two stroke points: padded by 50 pixels, at least
      `zoom` wide and high, centred on the padded span, clamped to the image. */
  function StrokeBox(a: (int, int), b: (int, int), zoom: nat, width: nat, height: nat): (r: Box)
    ensures 0 <= r.left && 0 <= r.top && r.right <= width && r.bottom <= height
  {
    var minX, maxX := Min(a.0, b.0) - StrokePadding, Max(a.0, b.0) + StrokePadding;
    var minY, maxY := Min(a.1, b.1) - StrokePadding, Max(a.1, b.1) + StrokePadding;
    var w, h := Max(zoom, maxX - minX), Max(zoom, maxY - minY);
    var cx, cy := (minX + maxX) / 2, (minY + maxY) / 2;
    Box(Max(0, cx - w / 2), Max(0, cy - h / 2), Min(width, cx + w / 2), Min(height, cy + h / 2))
  }

  /** The crop box of create_zoomed_action_image; None when there is no
      action centre, in which case the whole image is resized instead. */
  function CropBox(info: Option<Center>, zoom: nat, width: nat, height: nat): (r: Option<Box>)
    ensures r.Some? <==> info.Some?
    ensures r.Some? ==> 0 <= r.value.left && 0 <= r.value.top && r.value.right <= width && r.value.bottom <= height
  {
    match info
    case None => None
    case Some(c) =>
      if c.kind in {DragCenter, ScrollCenter} && c.start.Some? && c.end.Some? then
        Some(StrokeBox(c.start.value, c.end.value, zoom, width, height))
      else
        var half := zoom / 2;
        Some(Box(Max(0, c.x - half), Max(0, c.y - half), Min(width, c.x + half), Min(height, c.y + half)))
  }

  predicate InImage(p: (int, int), width: nat, height: nat) {
    0 <= p.0 <= width && 0 <= p.1 <= height
  }

  predicate InBox(p: (int, int), b: Box) {
    b.left <= p.0 <= b.right && b.top <= p.1 <= b.bottom
  }

  /** A click inside the image stays inside its crop box, and the box is the
      full zoom square wherever the image has room for it. */
  lemma ClickCropKeepsCentre(c: Center, zoom: nat, width: nat, height: nat)
    requires c.kind == ClickCenter && InImage((c.x, c.y), width, height)
    ensures var b := CropBox(Some(c), zoom, width, height).value;
            InBox((c.x, c.y), b) &&
            (zoom / 2 <= c.x <= width - zoom / 2 ==> b.right - b.left == zoom / 2 * 2) &&
            (zoom / 2 <= c.y <= height - zoom / 2 ==> b.bottom - b.top == zoom / 2 * 2)
  {
  }

  /** Both ends of a drag or scroll that lie in the image stay inside its crop box. */
  lemma StrokeCropKeepsEnds(a: (int, int), b: (int, int), zoom: nat, width: nat, height: nat)
    requires InImage(a, width, height) && InImage(b, width, height)
    ensures InBox(a, StrokeBox(a, b, zoom, width, height)) && InBox(b, StrokeBox(a, b, zoom, width, height))
  {
    SpanCovers(Min(a.0, b.0), Max(a.0, b.0), zoom);
    SpanCovers(Min(a.1, b.1), Max(a.1, b.1), zoom);
  }

  /** Centring a length of at least the padded span on the padded span covers
      the unpadded span. */
  lemma SpanCovers(lo: int, hi: int, zoom: nat)
    requires lo <= hi
    ensures var m, M := lo - StrokePadding, hi + StrokePadding;
            var w := Max(zoom, M - m);
            (m + M) / 2 - w / 2 <= lo && hi <= (m + M) / 2 + w / 2
  {
  }
}

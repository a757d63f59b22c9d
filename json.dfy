/** The JSON-shaped values that flow between the agent and its logs: action
    records, call arguments and processed-log payloads. A Python dict is an
    association list in insertion order; a lookup finds the first binding. */
module Json {
  import opened Common

  datatype Value =
    | Int(i: int)
    | Str(s: string)
    | List(items: seq<Value>)
    | Obj(fields: seq<(string, Value)>)

  type Dict = seq<(string, Value)>

  /** `d.get(k)`: the value bound to `k`, if any. */
  function Get(d: Dict, k: string): (r: Option<Value>)
  {
    if d == [] then None
    else if d[0].0 == k then Some(d[0].1)
    else Get(d[1..], k)
  }

  /** A binding in front of a dict shadows later bindings of its key only. */
  lemma GetCons(p: (string, Value), rest: Dict, k: string)
    ensures Get([p] + rest, k) == if p.0 == k then Some(p.1) else Get(rest, k)
  {
    assert ([p] + rest)[1..] == rest;
  }

  /** `v[k]` for a string key: a KeyError when a dict lacks the key, a TypeError
      when `v` is not a dict. */
  function Subscript(v: Value, k: string): (r: Result<Value>)
    ensures r.Ok? <==> v.Obj? && Get(v.fields, k).Some?
    ensures r.Ok? ==> r.value == Get(v.fields, k).value
    ensures v.Obj? && Get(v.fields, k).None? ==> r == Err(KeyError(k))
  {
    match v
    case Obj(d) => (match Get(d, k) case Some(x) => Ok(x) case None => Err(KeyError(k)))
    case _ => Err(TypeError)
  }

  /** `v[i]` for an integer index. */
  function Index(v: Value, i: nat): Result<Value> {
    match v
    case List(items) => if i < |items| then Ok(items[i]) else Err(IndexError)
    case Str(s) => if i < |s| then Ok(Str([s[i]])) else Err(IndexError)
    case Obj(_) => Err(KeyError(NatToString(i)))
    case Int(_) => Err(TypeError)
  }

  /** `{k2: v for k2, v in d.items() if k2 != k}`. */
  function Without(d: Dict, k: string): (r: Dict)
    ensures forall k' :: k' != k ==> Get(r, k') == Get(d, k')
    ensures Get(r, k).None?
    ensures |r| <= |d|
  {
    if d == [] then []
    else if d[0].0 == k then Without(d[1..], k)
    else [d[0]] + Without(d[1..], k)
  }

  /** Python's `repr()`, with strings always in single quotes and unescaped. */
  function Repr(v: Value): string
    decreases v
  {
    match v
    case Int(i) => IntToString(i)
    case Str(s) => "'" + s + "'"
    case List(items) =>
      "[" + Join(", ", seq(|items|, j requires 0 <= j < |items| => Repr(items[j]))) + "]"
    case Obj(fields) =>
      "{" + Join(", ", seq(|fields|, j requires 0 <= j < |fields| =>
                             "'" + fields[j].0 + "': " + Repr(fields[j].1))) + "}"
  }

  /** Python's `str()`, which is what an f-string substitutes. */
  function Show(v: Value): string {
    if v.Str? then v.s else Repr(v)
  }

  /** The strings met when iterating over `v` and calling `.lower()` on each:
      a list yields its elements (each must be a string), a string its
      characters, a dict its keys; an int is not iterable. */
  function KeyNames(v: Value): (r: Result<seq<string>>)
    ensures r.Ok? <==> v.Str? || v.Obj? || (v.List? && forall j :: 0 <= j < |v.items| ==> v.items[j].Str?)
    ensures v.Int? ==> r == Err(TypeError)
    ensures v.List? && r.Err? ==> r == Err(AttributeError("lower"))
    ensures v.List? && r.Ok? ==>
              |r.value| == |v.items| && forall j :: 0 <= j < |v.items| ==> r.value[j] == v.items[j].s
    ensures v.Str? ==> |r.value| == |v.s| && forall j :: 0 <= j < |v.s| ==> r.value[j] == [v.s[j]]
    ensures v.Obj? ==> |r.value| == |v.fields| && forall j :: 0 <= j < |v.fields| ==> r.value[j] == v.fields[j].0
  {
    match v
    case Int(_) => Err(TypeError)
    case Str(s) => Ok(seq(|s|, j requires 0 <= j < |s| => [s[j]]))
    case Obj(fields) => Ok(seq(|fields|, j requires 0 <= j < |fields| => fields[j].0))
    case List(items) =>
      if forall j :: 0 <= j < |items| ==> items[j].Str? then
        Ok(seq(|items|, j requires 0 <= j < |items| => items[j].s))
      else Err(AttributeError("lower"))
  }
}

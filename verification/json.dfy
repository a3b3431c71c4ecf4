/** Parsed JSON bodies as the chat routes see them, and the optional-chaining
    reads (`data?.a?.[0]?.b`) the routes use to pull a reply out of them. */
module Json {
  import opened Results

  /** A value produced by `response.json()`. Numbers are kept integral. */
  datatype Json =
    | JNull
    | JBool(b: bool)
    | JNum(n: int)
    | JStr(s: string)
    | JArr(items: seq<Json>)
    | JObj(fields: map<string, Json>)

  /** JavaScript truthiness: `null`, `false`, `0` and `""` are falsy,
      every array and object is truthy. */
  predicate Truthy(j: Json) {
    match j
    case JNull => false
    case JBool(b) => b
    case JNum(n) => n != 0
    case JStr(s) => |s| > 0
    case JArr(_) => true
    case JObj(_) => true
  }

  /** One link of an optional chain: `?.name` or `?.[0]`. */
  datatype Step = Key(name: string) | First

  /** Applies one link to a present value; `None` is `undefined`.
      A named property exists only on objects (the names the routes read are
      never `length` or numeric); `[0]` reads an array's first element, an
      object's `"0"` property or a string's first character. */
  function Select(j: Json, step: Step): Option<Json> {
    match step
    case Key(k) =>
      if j.JObj? && k in j.fields then Some(j.fields[k]) else None
    case First =>
      match j
      case JArr(items) => if |items| > 0 then Some(items[0]) else None
      case JObj(fields) => if "0" in fields then Some(fields["0"]) else None
      case JStr(s) => if |s| > 0 then Some(JStr([s[0]])) else None
      case _ => None
  }

  /** Follows a whole optional chain; once a link yields `undefined` (or a
      `null` is reached, which `?.` also stops at) the chain is `undefined`. */
  function Walk(j: Json, path: seq<Step>): Option<Json>
    decreases |path|
  {
    if |path| == 0 then Some(j)
    else
      match Select(j, path[0])
      case None => None
      case Some(v) => Walk(v, path[1..])
  }

  /** The smallest body that holds `v` at the end of `path`: one singleton
      object per property name and one singleton array per `[0]`. */
  function Nest(path: seq<Step>, v: Json): Json
    decreases |path|
  {
    if |path| == 0 then v
    else
      match path[0]
      case Key(k) => JObj(map[k := Nest(path[1..], v)])
      case First => JArr([Nest(path[1..], v)])
  }

  /** Reading back along the path finds exactly the value that was nested. */
  lemma {:induction false} WalkNest(path: seq<Step>, v: Json)
    ensures Walk(Nest(path, v), path) == Some(v)
    decreases |path|
  {
    if |path| > 0 {
      WalkNest(path[1..], v);
    }
  }

  /** A chain is `undefined` as soon as any prefix of it is. */
  lemma {:induction false} WalkStopsAtMissingPrefix(j: Json, path: seq<Step>, n: nat)
    requires n <= |path|
    requires Walk(j, path[..n]) == None
    ensures Walk(j, path) == None
    decreases n
  {
    assert n > 0;
    match Select(j, path[0])
    case None =>
    case Some(v) =>
      assert path[..n][1..] == path[1..][..n - 1];
      WalkStopsAtMissingPrefix(v, path[1..], n - 1);
  }
}

/**
 * A decoded JSON value as `json.loads` hands it to Python, and the handful of
 * Python operations the core applies to such values: `d.get(k, default)`,
 * `d[k]`, iteration, truthiness, `x or y`, `str(x)` and `sep.join(xs)`.
 * Every exception those operations can raise is an `Error` value.
 */
module Json {
  import opened Wrappers
  import opened Text

  /** Objects keep their keys in insertion order, as a Python dict does. */
  datatype Json =
    | JNull
    | JBool(b: bool)
    | JInt(i: int)
    | JString(s: string)
    | JArray(items: seq<Json>)
    | JObject(fields: seq<(string, Json)>)

  type Fields = seq<(string, Json)>

  /** The Python exceptions the modelled code can raise or let through. */
  datatype Error =
    | RuntimeError(message: string)
    | ValueError(message: string)
    | KeyError(key: string)
    | TypeError
    | AttributeError
    | UrlError(detail: string)

  function Keys(fields: Fields): (keys: seq<string>)
    ensures |keys| == |fields|
    ensures forall i :: 0 <= i < |fields| ==> keys[i] == fields[i].0
  {
    seq(|fields|, i requires 0 <= i < |fields| => fields[i].0)
  }

  /** The value stored under `key`, if any. */
  function Lookup(fields: Fields, key: string): (v: Option<Json>)
    ensures v.Some? <==> key in Keys(fields)
    ensures v.Some? ==> (key, v.value) in fields
  {
    if |fields| == 0 then None
    else if fields[0].0 == key then Some(fields[0].1)
    else
      assert Keys(fields) == [fields[0].0] + Keys(fields[1..]);
      Lookup(fields[1..], key)
  }

  /** `d[key] = v`: an existing key keeps its place, a new one goes last. */
  function Insert(fields: Fields, key: string, v: Json): (r: Fields)
    ensures Keys(r) == if key in Keys(fields) then Keys(fields) else Keys(fields) + [key]
  {
    if |fields| == 0 then [(key, v)]
    else
      KeysCons(fields[0], fields[1..]);
      assert [fields[0]] + fields[1..] == fields;
      if fields[0].0 == key then
        KeysCons((key, v), fields[1..]);
        [(key, v)] + fields[1..]
      else
        var rest := Insert(fields[1..], key, v);
        KeysCons(fields[0], rest);
        [fields[0]] + rest
  }

  lemma KeysCons(first: (string, Json), rest: Fields)
    ensures Keys([first] + rest) == [first.0] + Keys(rest)
  {
  }

  /** After `d[key] = v`, `d[key]` is `v` and every other key keeps its value. */
  lemma {:induction false} InsertLookup(fields: Fields, key: string, v: Json, k: string)
    ensures Lookup(Insert(fields, key, v), k) == if k == key then Some(v) else Lookup(fields, k)
  {
    if |fields| > 0 && fields[0].0 != key {
      var rest := Insert(fields[1..], key, v);
      assert ([fields[0]] + rest)[1..] == rest;
      InsertLookup(fields[1..], key, v, k);
    }
  }

  /** Inserting a key the dict does not have yet. */
  lemma InsertNew(fields: Fields, key: string, v: Json)
    requires key !in Keys(fields)
    ensures Keys(Insert(fields, key, v)) == Keys(fields) + [key]
    ensures forall k :: Lookup(Insert(fields, key, v), k) == if k == key then Some(v) else Lookup(fields, k)
  {
    forall k ensures Lookup(Insert(fields, key, v), k) == if k == key then Some(v) else Lookup(fields, k) {
      InsertLookup(fields, key, v, k);
    }
  }

  /** `d.get(key, default)` on a dict. */
  function GetOr(fields: Fields, key: string, default: Json): (v: Json)
    ensures key in Keys(fields) ==> Lookup(fields, key) == Some(v)
    ensures key !in Keys(fields) ==> v == default
  {
    match Lookup(fields, key)
    case Some(v) => v
    case None => default
  }

  /** `j.get(key)`: a value that is not a dict has no `get`. */
  function Get(j: Json, key: string): (r: Result<Json, Error>)
    ensures r.Failure? <==> !j.JObject?
    ensures r.Failure? ==> r.error == AttributeError
    ensures r.Success? ==> r.value == GetOr(j.fields, key, JNull)
  {
    match j
    case JObject(fields) => Success(GetOr(fields, key, JNull))
    case _ => Failure(AttributeError)
  }

  /** `j[key]`: a missing key raises KeyError, a value that is not a dict TypeError. */
  function Subscript(j: Json, key: string): (r: Result<Json, Error>)
    ensures r.Success? <==> j.JObject? && key in Keys(j.fields)
    ensures r.Success? ==> Lookup(j.fields, key) == Some(r.value)
    ensures r.Failure? ==> r.error == if j.JObject? then KeyError(key) else TypeError
  {
    match j
    case JObject(fields) =>
      (match Lookup(fields, key)
       case Some(v) => Success(v)
       case None => Failure(KeyError(key)))
    case _ => Failure(TypeError)
  }

  /** `j[k1][k2]...`: subscripts applied left to right, stopping at the first that raises. */
  function Path(j: Json, keys: seq<string>): Result<Json, Error>
  {
    if keys == [] then Success(j)
    else
      var v :- Subscript(j, keys[0]);
      Path(v, keys[1..])
  }

  /** What `for x in j` visits: a list's items, a dict's keys, a string's characters. */
  function Iterate(j: Json): (r: Result<seq<Json>, Error>)
    ensures r.Failure? <==> j.JNull? || j.JBool? || j.JInt?
    ensures j.JArray? ==> r == Success(j.items)
    ensures r.Success? ==> (|r.value| == 0 <==> !Truthy(j))
    ensures r.Failure? ==> r.error == TypeError
  {
    match j
    case JArray(items) => Success(items)
    case JObject(fields) =>
      Success(seq(|fields|, i requires 0 <= i < |fields| => JString(fields[i].0)))
    case JString(s) => Success(seq(|s|, i requires 0 <= i < |s| => JString([s[i]])))
    case _ => Failure(TypeError)
  }

  /** Python truthiness: `None`, `False`, `0` and empty strings, lists and dicts are false. */
  predicate Truthy(j: Json) {
    match j
    case JNull => false
    case JBool(b) => b
    case JInt(i) => i != 0
    case JString(s) => s != ""
    case JArray(items) => items != []
    case JObject(fields) => fields != []
  }

  /** `a or b`. */
  function Or(a: Json, b: Json): (r: Json)
    ensures Truthy(a) ==> r == a
    ensures !Truthy(a) ==> r == b
  {
    if Truthy(a) then a else b
  }

  /** `sep.join(items)`: every item must be a string, else TypeError. */
  function JoinStrings(sep: string, items: seq<Json>): (r: Result<string, Error>)
    ensures r.Success? <==> forall i :: 0 <= i < |items| ==> items[i].JString?
    ensures r.Success? ==> r.value == Join(seq(|items|, i requires 0 <= i < |items| => items[i].s), sep)
    ensures r.Failure? ==> r.error == TypeError
  {
    if forall i :: 0 <= i < |items| ==> items[i].JString? then
      Success(Join(seq(|items|, i requires 0 <= i < |items| => items[i].s), sep))
    else Failure(TypeError)
  }

  /** `str(j)`, which is what an f-string placeholder shows. */
  function Display(j: Json): string {
    if j.JString? then j.s else Repr(j)
  }

  /** `repr(j)`. */
  function Repr(j: Json): string
    decreases j
  {
    match j
    case JNull => "None"
    case JBool(b) => if b then "True" else "False"
    case JInt(i) => IntToString(i)
    case JString(s) => Quote(s)
    case JArray(items) =>
      "[" + Join(seq(|items|, k requires 0 <= k < |items| => Repr(items[k])), ", ") + "]"
    case JObject(fields) =>
      "{" + Join(seq(|fields|, k requires 0 <= k < |fields| =>
                   Quote(fields[k].0) + ": " + Repr(fields[k].1)), ", ") + "}"
  }

  /** The quoted form `repr` gives a string: single quotes unless only double quotes avoid escaping. */
  function Quote(s: string): string {
    var q := if '\'' in s && '"' !in s then '"' else '\'';
    [q] + Escaped(s, q) + [q]
  }

  function Escaped(s: string, q: char): string
    decreases |s|
  {
    if s == [] then [] else EscapeChar(s[0], q) + Escaped(s[1..], q)
  }

  function EscapeChar(ch: char, q: char): string {
    if ch == q || ch == '\\' then ['\\', ch]
    else if ch == '\t' then "\\t"
    else if ch == '\n' then "\\n"
    else if ch == '\r' then "\\r"
    else if ch as int < 0x20 || (0x7F <= ch as int <= 0xA0) || ch as int == 0xAD then
      "\\x" + [HexDigit(ch as int / 16), HexDigit(ch as int % 16)]
    else [ch]
  }

  function HexDigit(d: nat): char
    requires d < 16
  {
    "0123456789abcdef"[d]
  }

  /** `str(i)` for an integer: decimal digits, a leading `-` when negative. */
  function IntToString(i: int): string {
    if i < 0 then "-" + NatToString(-i) else NatToString(i)
  }

  function NatToString(n: nat): string
    decreases n
  {
    if n < 10 then ["0123456789"[n]] else NatToString(n / 10) + ["0123456789"[n % 10]]
  }
}

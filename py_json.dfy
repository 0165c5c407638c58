/** Decoded JSON as the Python code of the pipeline sees it (the result of
    `json.loads`), and the handful of Python operations the pipeline applies to
    such values: `d.get(k, default)`, `k in x`, `x[k]`, truthiness, iteration,
    `x > 0.6`, `x * 100` and f-string formatting. Each operation that can raise
    returns a `Result` whose `Raise` carries the `str(e)` of the exception. */
module PyJson {
  import opened Wrappers
  import opened Strings

  /** A decoded JSON value. `JInt` and `JFloat` keep Python's two number types
      apart (the error messages name them); objects are ordered like Python
      dicts, as a list of key/value pairs. */
  datatype Json =
    | JNull
    | JBool(b: bool)
    | JInt(i: int)
    | JFloat(f: real)
    | JStr(s: string)
    | JArr(items: seq<Json>)
    | JObj(fields: seq<(string, Json)>)

  /** What `json.loads` makes of a text handed back by a collaborator: the
      decoded document, or the message of the decoding error it raises. */
  datatype Reply = Doc(doc: Json) | NotJson(message: string)

  /** `json.loads(text)` for a collaborator's text. */
  function Loads(reply: Reply): Result<Json> {
    match reply
    case Doc(d) => Ok(d)
    case NotJson(m) => Raise(m)
  }

  /** `{"error": message}`, the shape of every error document in the pipeline. */
  function ErrorDoc(message: string): Json {
    JObj([("error", JStr(message))])
  }

  /** Python's truth value of a decoded JSON value (`if x:`, `not x`, `x and y`). */
  predicate Truthy(j: Json) {
    match j
    case JNull => false
    case JBool(b) => b
    case JInt(i) => i != 0
    case JFloat(f) => f != 0.0
    case JStr(s) => s != ""
    case JArr(a) => a != []
    case JObj(fs) => fs != []
  }

  /** The Python type name that appears in exception messages. */
  function TypeName(j: Json): string {
    match j
    case JNull => "NoneType"
    case JBool(_) => "bool"
    case JInt(_) => "int"
    case JFloat(_) => "float"
    case JStr(_) => "str"
    case JArr(_) => "list"
    case JObj(_) => "dict"
  }

  /** The value bound to `key`; when a decoded object repeats a key, the last
      binding is the one `json.loads` keeps. */
  function Lookup(fields: seq<(string, Json)>, key: string): Option<Json> {
    if fields == [] then None
    else if fields[|fields| - 1].0 == key then Some(fields[|fields| - 1].1)
    else Lookup(fields[..|fields| - 1], key)
  }

  predicate HasKey(j: Json, key: string) {
    j.JObj? && Lookup(j.fields, key).Some?
  }

  /** `j.get(key, default)`; `j.get(key)` is `Get(j, key, JNull)`. */
  function Get(j: Json, key: string, default: Json): Result<Json> {
    if !j.JObj? then Raise("'" + TypeName(j) + "' object has no attribute 'get'")
    else match Lookup(j.fields, key)
      case Some(v) => Ok(v)
      case None => Ok(default)
  }

  /** `j[key]` with a string key. */
  function Index(j: Json, key: string): Result<Json> {
    match j
    case JObj(fs) =>
      (match Lookup(fs, key)
       case Some(v) => Ok(v)
       case None => Raise("'" + key + "'"))
    case JArr(_) => Raise("list indices must be integers or slices, not str")
    case JStr(_) => Raise("string indices must be integers, not 'str'")
    case _ => Raise("'" + TypeName(j) + "' object is not subscriptable")
  }

  /** `key in j` with a string on the left: a key of a dict, an element of a
      list, a substring of a string; anything else is not iterable. */
  function In(key: string, j: Json): Result<bool> {
    match j
    case JObj(fs) => Ok(Lookup(fs, key).Some?)
    case JArr(a) => Ok(JStr(key) in a)
    case JStr(s) => Ok(Contains(s, key))
    case _ => Raise("argument of type '" + TypeName(j) + "' is not iterable")
  }

  /** The values `for x in j` visits: the elements of a list, the one-character
      strings of a string, the keys of a dict. */
  function Elements(j: Json): Result<seq<Json>> {
    match j
    case JArr(a) => Ok(a)
    case JStr(s) => Ok(seq(|s|, i requires 0 <= i < |s| => JStr([s[i]])))
    case JObj(fs) => Ok(seq(|fs|, i requires 0 <= i < |fs| => JStr(fs[i].0)))
    case _ => Raise("'" + TypeName(j) + "' object is not iterable")
  }

  /** The pattern `if d and d.get(key): for x in d[key]: ...`: the values the
      loop visits, none when the guard is false. */
  function ItemsIfPresent(d: Json, key: string): Result<seq<Json>> {
    if !Truthy(d) then Ok([])
    else
      var v :- Get(d, key, JNull);
      if !Truthy(v) then Ok([]) else Elements(v)
  }

  /** The numeric value of an int, float or bool (bool is a subclass of int). */
  function NumberOf(j: Json): Option<real> {
    match j
    case JInt(i) => Some(i as real)
    case JFloat(f) => Some(f)
    case JBool(b) => Some(if b then 1.0 else 0.0)
    case _ => None
  }

  /** `j > threshold` for a float threshold. */
  function Exceeds(j: Json, threshold: real): Result<bool> {
    match NumberOf(j)
    case Some(x) => Ok(x > threshold)
    case None => Raise("'>' not supported between instances of '" + TypeName(j) + "' and 'float'")
  }

  /** `a == b` as Python compares decoded values: numbers by value across int,
      float and bool; other values structurally. */
  predicate PyEq(a: Json, b: Json) {
    if NumberOf(a).Some? && NumberOf(b).Some? then NumberOf(a) == NumberOf(b) else a == b
  }

  function Repeat<T>(s: seq<T>, n: nat): seq<T> {
    if n == 0 then [] else s + Repeat(s, n - 1)
  }

  /** `j * 100`: numbers scale, strings and lists repeat, the rest raise. */
  function Times100(j: Json): Result<Json> {
    match j
    case JInt(i) => Ok(JInt(i * 100))
    case JFloat(f) => Ok(JFloat(f * 100.0))
    case JBool(b) => Ok(JInt(if b then 100 else 0))
    case JStr(s) => Ok(JStr(Repeat(s, 100)))
    case JArr(a) => Ok(JArr(Repeat(a, 100)))
    case _ => Raise("unsupported operand type(s) for *: '" + TypeName(j) + "' and 'int'")
  }

  /** How Python renders values whose text this model leaves abstract: `str(x)`
      of a value that is not a string, and `format(x, ".2f")` of a number. */
  datatype Formatter = Formatter(show: Json -> string, fixed2: real -> string)

  /** `str(j)`, as an f-string interpolates `{j}`. */
  function Str(j: Json, fmt: Formatter): string {
    if j.JStr? then j.s else fmt.show(j)
  }

  /** `format(j, ".2f")`, as an f-string interpolates `{j:.2f}`. */
  function Fixed2(j: Json, fmt: Formatter): Result<string> {
    match NumberOf(j)
    case Some(x) => Ok(fmt.fixed2(x))
    case None =>
      if j.JStr? then Raise("Unknown format code 'f' for object of type 'str'")
      else Raise("unsupported format string passed to " + TypeName(j) + ".__format__")
  }

  /** `Get` raises exactly on values that are not dicts, and otherwise returns
      the bound value or the default. */
  lemma GetOnDict(j: Json, key: string, default: Json)
    ensures Get(j, key, default).Ok? <==> j.JObj?
    ensures HasKey(j, key) ==> Get(j, key, default) == Ok(Lookup(j.fields, key).value)
    ensures j.JObj? && !HasKey(j, key) ==> Get(j, key, default) == Ok(default)
  {
  }

  /** The binding of the last pair of an object literal wins. */
  lemma {:induction false} LookupLiteral(fields: seq<(string, Json)>, key: string, v: Json)
    requires exists k :: 0 <= k < |fields| && fields[k] == (key, v) && forall m :: k < m < |fields| ==> fields[m].0 != key
    ensures Lookup(fields, key) == Some(v)
  {
    var k :| 0 <= k < |fields| && fields[k] == (key, v) && forall m :: k < m < |fields| ==> fields[m].0 != key;
    if k < |fields| - 1 {
      assert fields[..|fields| - 1][k] == fields[k];
      LookupLiteral(fields[..|fields| - 1], key, v);
    }
  }

  /** A key bound by no pair is absent. */
  lemma {:induction false} LookupAbsent(fields: seq<(string, Json)>, key: string)
    requires forall m :: 0 <= m < |fields| ==> fields[m].0 != key
    ensures Lookup(fields, key) == None
  {
    if fields != [] {
      LookupAbsent(fields[..|fields| - 1], key);
    }
  }
}

/** Decoded JSON values and the few Python operations the bot applies to them.

    `json.loads` turns the API's answer into None, bool, int, str, list and
    dict values; this module gives them one datatype and models, on it, the
    Python operators the script uses on a decoded value: truthiness (`or`),
    membership (`in`), subscription (`[]`), `dict.get` and the text an
    f-string inserts for a value.
 */
module JsonValues {
  import opened Exceptions

  datatype Json =
    | Null
    | Bool(b: bool)
    | Int(i: int)
    | Str(s: string)
    | Array(items: seq<Json>)
    | Object(fields: map<string, Json>)

  /** Python truthiness: None, False, 0, "", [] and {} are false. */
  predicate Truthy(j: Json) {
    match j
    case Null => false
    case Bool(b) => b
    case Int(i) => i != 0
    case Str(s) => s != ""
    case Array(items) => items != []
    case Object(fields) => fields != map[]
  }

  /** `d.get(key, default)` on a dict. */
  function Get(fields: map<string, Json>, key: string, default: Json): (r: Json)
    ensures key in fields ==> r == fields[key]
    ensures key !in fields ==> r == default
  {
    if key in fields then fields[key] else default
  }

  /** Python's `needle in haystack` on two strs. */
  predicate IsSubstring(needle: string, haystack: string)
    decreases |haystack|
  {
    needle <= haystack || (haystack != [] && IsSubstring(needle, haystack[1..]))
  }

  /** Python's `key in container` for a str key: dict keys, list elements,
      substrings; None, bools and ints are not iterable. */
  function Contains(container: Json, key: string): (r: Result<bool>)
    ensures container.Object? ==> r == Ok(key in container.fields)
    ensures r.Err? <==> container.Null? || container.Bool? || container.Int?
    ensures r.Err? ==> r.error == TypeError(NotIterable)
  {
    match container
    case Object(fields) => Ok(key in fields)
    case Array(items) => Ok(Str(key) in items)
    case Str(s) => Ok(IsSubstring(key, s))
    case _ => Err(TypeError(NotIterable))
  }

  /** Python's `container[key]` for a str key. */
  function Subscript(container: Json, key: string): (r: Result<Json>)
    ensures r.Ok? <==> container.Object? && key in container.fields
    ensures r.Ok? ==> r.value == container.fields[key]
    ensures container.Object? && key !in container.fields ==> r == Err(KeyError)
  {
    match container
    case Object(fields) => if key in fields then Ok(fields[key]) else Err(KeyError)
    case Array(_) => Err(TypeError(NonIntegerIndex))
    case Str(_) => Err(TypeError(NonIntegerIndex))
    case _ => Err(TypeError(NotSubscriptable))
  }

  /** Python's `hash` succeeds: lists and dicts are unhashable. */
  predicate Hashable(j: Json) {
    !j.Array? && !j.Object?
  }

  function DigitChar(d: nat): (c: char)
    requires d < 10
    ensures '0' <= c <= '9'
  {
    "0123456789"[d]
  }

  /** The decimal digits of n, most significant first, as `str(n)` writes them. */
  function Digits(n: nat): (r: string)
    ensures r != []
    ensures forall k :: 0 <= k < |r| ==> '0' <= r[k] <= '9'
    decreases n
  {
    if n < 10 then [DigitChar(n)] else Digits(n / 10) + [DigitChar(n % 10)]
  }

  function Decimal(i: int): (r: string)
    ensures r != []
    ensures i < 0 <==> r[0] == '-'
  {
    if i < 0 then "-" + Digits(-i) else Digits(i)
  }

  function Join(parts: seq<string>, sep: string): string
  {
    if |parts| == 0 then ""
    else if |parts| == 1 then parts[0]
    else parts[0] + sep + Join(parts[1..], sep)
  }

  /** The text `str(j)` gives, which is what `f"{j}"` inserts. A str is
      inserted verbatim; a list is written with its elements' repr. */
  function Format(j: Json): (r: string)
    ensures j.Str? ==> r == j.s
    ensures j.Int? ==> r == Decimal(j.i)
  {
    match j
    case Str(s) => s
    case _ => Repr(j)
  }

  /** Python's `repr(j)`. Strings are put between single quotes without
      escaping; a non-empty dict is written `{...}`, because the map keeps no
      key order to print it in. */
  function Repr(j: Json): string
  {
    match j
    case Null => "None"
    case Bool(b) => if b then "True" else "False"
    case Int(i) => Decimal(i)
    case Str(s) => "'" + s + "'"
    case Array(items) => "[" + Join(seq(|items|, k requires 0 <= k < |items| => Repr(items[k])), ", ") + "]"
    case Object(fields) => if fields == map[] then "{}" else "{...}"
  }
}

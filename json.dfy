/**
 * Decoded JSON values as the protocol client sees them after `json.loads`,
 * together with the Python operations the client applies to them: truth
 * value, `x[k]` indexing and `list(x)`.  Floating-point numbers are not part
 * of the model.
 */
module Json {
  import opened Wrappers

  datatype Json =
    | JNull
    | JBool(b: bool)
    | JNum(n: int)
    | JStr(s: string)
    | JArr(items: seq<Json>)
    | JObj(fields: seq<(string, Json)>)

  /** Python's truth value of a decoded JSON value (`bool(x)`). */
  predicate Truthy(j: Json) {
    match j
    case JNull => false
    case JBool(b) => b
    case JNum(n) => n != 0
    case JStr(s) => s != []
    case JArr(items) => items != []
    case JObj(fields) => fields != []
  }

  /** `x and isinstance(x, list)`: a non-empty list. */
  predicate IsNonEmptyList(j: Json) {
    j.JArr? && j.items != []
  }

  /**
   * Python's resolution of an integer subscript `i` on a sequence of length
   * `len`: negative subscripts count from the end; anything else out of
   * range is an IndexError (None).
   */
  function PyIndex(i: int, len: nat): (r: Option<nat>)
    ensures r.Some? <==> -(len as int) <= i < len
    ensures r.Some? ==> r.value < len && (r.value == i || r.value == len + i)
  {
    if 0 <= i < len then Some(i)
    else if -(len as int) <= i < 0 then Some(len + i)
    else None
  }

  /**
   * `j[k]` for a decoded JSON value: a list yields an element, a string a
   * one-character string; out-of-range subscripts (IndexError), dictionaries
   * with an integer key (KeyError) and scalars (TypeError) all fail (None).
   */
  function Item(j: Json, k: int): (r: Option<Json>)
    ensures j.JArr? && 0 <= k < |j.items| ==> r == Some(j.items[k])
    ensures j.JArr? && -|j.items| <= k < 0 ==> r == Some(j.items[|j.items| + k])
    ensures r.Some? ==> j.JArr? || j.JStr?
    ensures r.Some? <==> (j.JArr? && -|j.items| <= k < |j.items|) || (j.JStr? && -|j.s| <= k < |j.s|)
  {
    match j
    case JArr(items) =>
      (match PyIndex(k, |items|)
       case Some(i) => Some(items[i])
       case None => None)
    case JStr(s) =>
      (match PyIndex(k, |s|)
       case Some(i) => Some(JStr([s[i]]))
       case None => None)
    case _ => None
  }

  /**
   * `list(j)`: the elements of a list, the characters of a string, the keys of
   * an object; other values raise TypeError (None).
   */
  function ToList(j: Json): (r: Option<seq<Json>>)
    ensures j.JArr? ==> r == Some(j.items)
    ensures r.Some? <==> (j.JArr? || j.JStr? || j.JObj?)
    ensures j.JStr? ==> r.Some? && |r.value| == |j.s|
  {
    match j
    case JArr(items) => Some(items)
    case JStr(s) => Some(seq(|s|, i requires 0 <= i < |s| => JStr([s[i]])))
    case JObj(fields) => Some(seq(|fields|, i requires 0 <= i < |fields| => JStr(fields[i].0)))
    case _ => None
  }

  /**
   * An integer as the grid code uses one (`rows * columns`, `range(n)`):
   * JSON integers, and booleans as 0 and 1 since Python's bool is an int.
   */
  function AsInt(j: Json): (r: Option<int>)
    ensures j.JNum? ==> r == Some(j.n)
    ensures r.Some? <==> (j.JNum? || j.JBool?)
  {
    match j
    case JNum(n) => Some(n)
    case JBool(b) => Some(if b then 1 else 0)
    case _ => None
  }

  /** Whether a value can be a dictionary key (lists and objects cannot). */
  predicate Hashable(j: Json) {
    !j.JArr? && !j.JObj?
  }
}

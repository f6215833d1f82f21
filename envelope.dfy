/**
 * Decoding of the server's reply envelopes: the anti-hijacking first line
 * of every JSON reply, and the positional lookups `get_meta` and
 * `get_rresp` that find the interesting sub-lists inside a reply.
 */
module Envelope {
  import opened Wrappers
  import opened Json
  import opened Errors

  /** Position of the first `c` in `s`. */
  function IndexOf(s: string, c: char): (r: Option<nat>)
    ensures r.Some? ==> r.value < |s| && s[r.value] == c && c !in s[..r.value]
    ensures r.None? <==> c !in s
  {
    if s == [] then None
    else if s[0] == c then Some(0)
    else match IndexOf(s[1..], c)
      case None => None
      case Some(k) =>
        assert s[..k + 1] == [s[0]] + s[1..][..k];
        Some(k + 1)
  }

  /**
   * `load_rc_json`: the text after the first newline, decoded by `loads` (the
   * JSON decoder, a parameter).  Without a newline the subscript `[1]` fails
   * (IndexError); a decoder failure is a DecodeError.
   */
  function LoadRcJson(text: string, loads: string -> Option<Json>): (r: Result<Json, Error>)
    ensures '\n' !in text ==> r == Failure(ShapeError)
    ensures r.Success? ==> exists k :: 0 <= k < |text| && text[k] == '\n' && loads(text[k + 1..]) == Some(r.value)
  {
    match IndexOf(text, '\n')
    case None => Failure(ShapeError)
    case Some(k) =>
      match loads(text[k + 1..])
      case None => Failure(DecodeError)
      case Some(j) => Success(j)
  }

  /** The first line, whatever it holds, is skipped; the rest is decoded. */
  lemma LoadRcJsonSkipsFirstLine(first: string, rest: string, loads: string -> Option<Json>)
    requires '\n' !in first
    ensures LoadRcJson(first + "\n" + rest, loads)
         == (match loads(rest) case None => Failure(DecodeError) case Some(j) => Success(j))
  {
    var text := first + "\n" + rest;
    IndexOfPrefix(first, "\n" + rest, '\n');
    assert text[|first| + 1..] == rest;
  }

  lemma {:induction false} IndexOfPrefix(a: string, b: string, c: char)
    requires c !in a && b != [] && b[0] == c
    ensures IndexOf(a + b, c) == Some(|a|)
  {
    if a != [] {
      assert (a + b)[1..] == a[1..] + b;
      IndexOfPrefix(a[1..], b, c);
    } else {
      assert a + b == b;
    }
  }

  /** Example: the usual ")]}'" guard line. */
  lemma LoadRcJsonExample(loads: string -> Option<Json>)
    ensures LoadRcJson(")]}'\n[1,2,3]", loads)
         == (match loads("[1,2,3]") case None => Failure(DecodeError) case Some(j) => Success(j))
  {
    var first, rest := ")]}'", "[1,2,3]";
    assert ")]}'\n[1,2,3]" == first + "\n" + rest;
    assert '\n' !in first by {
      assert first == [')', ']', '}', '\''];
    }
    LoadRcJsonSkipsFirstLine(first, rest, loads);
  }

  /** Example: a reply without the guard line cannot be decoded. */
  lemma LoadRcJsonNoGuard(loads: string -> Option<Json>)
    ensures LoadRcJson("[1,2,3]", loads) == Failure(ShapeError)
  {
    var text := "[1,2,3]";
    assert '\n' !in text by {
      assert forall i :: 0 <= i < |text| ==> text[i] != '\n';
    }
  }

  /** Index of the first non-empty list among `items`. */
  function FirstNonEmptyList(items: seq<Json>): (r: Option<nat>)
    ensures r.Some? ==> r.value < |items| && IsNonEmptyList(items[r.value])
    ensures r.Some? ==> forall j :: 0 <= j < r.value ==> !IsNonEmptyList(items[j])
    ensures r.None? <==> forall j :: 0 <= j < |items| ==> !IsNonEmptyList(items[j])
  {
    if items == [] then None
    else if IsNonEmptyList(items[0]) then Some(0)
    else match FirstNonEmptyList(items[1..])
      case None => None
      case Some(k) => Some(k + 1)
  }

  /**
   * What `get_meta(pmeta, probable_index)` returns: `pmeta[probable_index]`
   * when it is a non-empty list, else the first non-empty list child.
   * A `pmeta` that is not a list is a TypeError; a subscript below `-len`
   * is an IndexError.
   */
  function Meta(pmeta: Json, probableIndex: int): (r: Result<Json, Error>)
    ensures !pmeta.JArr? ==> r == Failure(ShapeError)
    ensures r.Success? ==> IsNonEmptyList(r.value) && r.value in pmeta.items
    ensures pmeta.JArr? && PyIndex(probableIndex, |pmeta.items|).Some?
            && IsNonEmptyList(pmeta.items[PyIndex(probableIndex, |pmeta.items|).value])
            ==> r == Success(pmeta.items[PyIndex(probableIndex, |pmeta.items|).value])
    ensures pmeta.JArr? && -|pmeta.items| <= probableIndex
            && !(PyIndex(probableIndex, |pmeta.items|).Some?
                 && IsNonEmptyList(pmeta.items[PyIndex(probableIndex, |pmeta.items|).value]))
            && FirstNonEmptyList(pmeta.items).Some?
            ==> r == Success(pmeta.items[FirstNonEmptyList(pmeta.items).value])
    ensures r == Failure(MetaNotFound) <==>
            pmeta.JArr? && -|pmeta.items| <= probableIndex &&
            forall j :: 0 <= j < |pmeta.items| ==> !IsNonEmptyList(pmeta.items[j])
    ensures r == Failure(ShapeError) <==> !pmeta.JArr? || probableIndex < -|pmeta.items|
  {
    if !pmeta.JArr? then Failure(ShapeError)
    else
      var items := pmeta.items;
      var preferred :=
        if probableIndex < |items| then
          (match PyIndex(probableIndex, |items|)
           case None => Failure(ShapeError)
           case Some(i) => if IsNonEmptyList(items[i]) then Success(items[i]) else Failure(MetaNotFound))
        else Failure(MetaNotFound);
      if preferred.Success? || preferred == Failure(ShapeError) then preferred
      else match FirstNonEmptyList(items)
        case None => Failure(MetaNotFound)
        case Some(k) => Success(items[k])
  }

  /** `get_meta`: the preferred subscript first, then a scan of the children. */
  method GetMeta(pmeta: Json, probableIndex: int) returns (r: Result<Json, Error>)
    ensures r == Meta(pmeta, probableIndex)
  {
    if !pmeta.JArr? {
      return Failure(ShapeError);
    }
    var items := pmeta.items;
    if probableIndex < |items| {
      var i := PyIndex(probableIndex, |items|);
      if i.None? {
        return Failure(ShapeError);
      }
      if IsNonEmptyList(items[i.value]) {
        return Success(items[i.value]);
      }
    }
    for k := 0 to |items|
      invariant forall j :: 0 <= j < k ==> !IsNonEmptyList(items[j])
    {
      if IsNonEmptyList(items[k]) {
        FirstNonEmptyListIs(items, k);
        return Success(items[k]);
      }
    }
    return Failure(MetaNotFound);
  }

  /** The first index satisfying the search is the one the scan stops at. */
  lemma FirstNonEmptyListIs(items: seq<Json>, k: nat)
    requires k < |items| && IsNonEmptyList(items[k])
    requires forall j :: 0 <= j < k ==> !IsNonEmptyList(items[j])
    ensures FirstNonEmptyList(items) == Some(k)
  {
    var r := FirstNonEmptyList(items);
    assert r.Some?;
  }

  /** A child that is a non-empty list whose head is the string "rresp". */
  predicate IsRrespChild(child: Json) {
    IsNonEmptyList(child) && child.items[0] == JStr("rresp")
  }

  /** Index of the first "rresp" child. */
  function FirstRresp(items: seq<Json>): (r: Option<nat>)
    ensures r.Some? ==> r.value < |items| && IsRrespChild(items[r.value])
    ensures r.Some? ==> forall j :: 0 <= j < r.value ==> !IsRrespChild(items[j])
    ensures r.None? <==> forall j :: 0 <= j < |items| ==> !IsRrespChild(items[j])
  {
    if items == [] then None
    else if IsRrespChild(items[0]) then Some(0)
    else match FirstRresp(items[1..])
      case None => None
      case Some(k) => Some(k + 1)
  }

  /** What `get_rresp(uvresp)` returns: the first "rresp" child, if any. */
  function Rresp(uvresp: Json): (r: Result<Option<Json>, Error>)
    ensures !uvresp.JArr? <==> r == Failure(ShapeError)
    ensures r.Success? && r.value.Some? ==> IsRrespChild(r.value.value) && r.value.value in uvresp.items
    ensures uvresp.JArr? && FirstRresp(uvresp.items).Some?
            ==> r == Success(Some(uvresp.items[FirstRresp(uvresp.items).value]))
    ensures r == Success(None) <==>
            uvresp.JArr? && forall j :: 0 <= j < |uvresp.items| ==> !IsRrespChild(uvresp.items[j])
  {
    if !uvresp.JArr? then Failure(ShapeError)
    else match FirstRresp(uvresp.items)
      case None => Success(None)
      case Some(k) => Success(Some(uvresp.items[k]))
  }

  /** `get_rresp`: a scan of the reply's children. */
  method GetRresp(uvresp: Json) returns (r: Result<Option<Json>, Error>)
    ensures r == Rresp(uvresp)
  {
    if !uvresp.JArr? {
      return Failure(ShapeError);
    }
    var items := uvresp.items;
    for k := 0 to |items|
      invariant forall j :: 0 <= j < k ==> !IsRrespChild(items[j])
    {
      if IsRrespChild(items[k]) {
        FirstRrespIs(items, k);
        return Success(Some(items[k]));
      }
    }
    return Success(None);
  }

  lemma FirstRrespIs(items: seq<Json>, k: nat)
    requires k < |items| && IsRrespChild(items[k])
    requires forall j :: 0 <= j < k ==> !IsRrespChild(items[j])
    ensures FirstRresp(items) == Some(k)
  {
    var r := FirstRresp(items);
    assert r.Some?;
  }

  /** Example: the preferred position is skipped when it holds an empty list. */
  lemma MetaExample()
    ensures Meta(JArr([JNum(0), JArr([]), JArr([JNum(7)])]), 1) == Success(JArr([JNum(7)]))
    ensures Meta(JArr([JArr([JNum(3)]), JArr([JNum(7)])]), 1) == Success(JArr([JNum(7)]))
    ensures Meta(JArr([JNum(0)]), 5) == Failure(MetaNotFound)
  {
    var a := [JNum(0), JArr([]), JArr([JNum(7)])];
    assert !IsNonEmptyList(a[0]) && !IsNonEmptyList(a[1]);
    assert FirstNonEmptyList(a) == Some(2);
  }
}

/**
 * The JSON texts the client writes itself with `json.dumps(...,
 * separators=",:")`: integer lists, lists of them, and the verify body
 * `{"response": ...}`; plus a reader for integer lists that shows the text
 * determines the list.
 */
module JsonText {
  import opened Wrappers
  import opened PyStr
  import opened Envelope
  import opened Types

  /** The decimal form of each integer. */
  function Decimals(xs: seq<int>): (r: seq<string>)
  {
    seq(|xs|, i requires 0 <= i < |xs| => IntToDecimal(xs[i]))
  }

  /** `json.dumps(xs, separators=",:")` for a list of integers. */
  function IntListText(xs: seq<int>): string {
    "[" + Join(",", Decimals(xs)) + "]"
  }

  /** `json.dumps(groups, separators=",:")` for a list of integer lists. */
  function GroupsText(groups: seq<seq<int>>): string {
    "[" + Join(",", seq(|groups|, i requires 0 <= i < |groups| => IntListText(groups[i]))) + "]"
  }

  /** `json.dumps([group], separators=",:")`: one group inside a list. */
  function OneGroupText(group: seq<int>): string {
    "[" + IntListText(group) + "]"
  }

  /** The one-group text is the general text of a one-element list of groups. */
  lemma OneGroupIsGroups(group: seq<int>)
    ensures GroupsText([group]) == OneGroupText(group)
  {
    var parts := seq(1, i requires 0 <= i < 1 => IntListText([group][i]));
    assert parts == [IntListText(group)];
  }

  /** `json.dumps({"response": solution.response}, separators=",:")`. */
  function ResponseText(solution: Solution): string {
    "{\"response\":"
    + (match solution
       case DynamicSolution(ids) => IntListText(ids)
       case MultiSolution(groups) => GroupsText(groups))
    + "}"
  }

  /** A one-element list is printed as the decimal between brackets (`"[{}]".format(n)`). */
  lemma SingletonText(n: int)
    ensures IntListText([n]) == "[" + IntToDecimal(n) + "]"
  {
    assert Decimals([n]) == [IntToDecimal(n)];
  }

  /** `s.split(c)`: the pieces between occurrences of `c`. */
  function SplitOn(s: string, c: char): (r: seq<string>)
    ensures r != []
    decreases |s|
  {
    match IndexOf(s, c)
    case None => [s]
    case Some(k) => [s[..k]] + SplitOn(s[k + 1..], c)
  }

  /** Splitting a join on its separator gives the parts back when none holds it. */
  lemma {:induction false} SplitJoin(parts: seq<string>, c: char)
    requires parts != []
    requires forall i :: 0 <= i < |parts| ==> c !in parts[i]
    ensures SplitOn(Join([c], parts), c) == parts
  {
    if |parts| > 1 {
      var rest := Join([c], parts[1..]);
      var s := parts[0] + ([c] + rest);
      assert Join([c], parts) == s;
      IndexOfPrefix(parts[0], [c] + rest, c);
      assert s[..|parts[0]|] == parts[0];
      assert s[|parts[0]| + 1..] == rest;
      SplitJoin(parts[1..], c);
    }
  }

  /** A join starts with its first part. */
  lemma {:induction false} JoinPrefix(sep: string, parts: seq<string>)
    requires parts != []
    ensures |Join(sep, parts)| >= |parts[0]|
  {
  }

  /** Each token read as an integer, all or nothing. */
  function ParseInts(tokens: seq<string>): (r: Option<seq<int>>)
    ensures r.Some? ==> |r.value| == |tokens|
  {
    if tokens == [] then Some([])
    else match (PyInt(tokens[0]), ParseInts(tokens[1..]))
      case (Some(x), Some(rest)) => Some([x] + rest)
      case _ => None
  }

  /** Reads a bracketed, comma-separated integer list. */
  function ParseIntList(t: string): Option<seq<int>> {
    if |t| < 2 || t[0] != '[' || t[|t| - 1] != ']' then None
    else
      var inner := t[1..|t| - 1];
      if inner == [] then Some([]) else ParseInts(SplitOn(inner, ','))
  }

  lemma NoComma(x: int)
    ensures ',' !in IntToDecimal(x)
  {
    var r := IntToDecimal(x);
    if x < 0 {
      assert r[1..] == NatToDecimal(-x);
      assert forall i :: 1 <= i < |r| ==> r[i] == r[1..][i - 1];
    }
  }

  lemma {:induction false} ParseDecimals(xs: seq<int>)
    ensures ParseInts(Decimals(xs)) == Some(xs)
  {
    if xs != [] {
      IntRoundTrip(xs[0]);
      assert Decimals(xs)[1..] == Decimals(xs[1..]);
      ParseDecimals(xs[1..]);
      assert [xs[0]] + xs[1..] == xs;
    }
  }

  /** The printed list reads back as the list. */
  lemma IntListRoundTrip(xs: seq<int>)
    ensures ParseIntList(IntListText(xs)) == Some(xs)
  {
    var parts := Decimals(xs);
    var t := IntListText(xs);
    assert t[1..|t| - 1] == Join(",", parts);
    if xs != [] {
      forall i | 0 <= i < |parts|
        ensures ',' !in parts[i]
      {
        NoComma(xs[i]);
      }
      JoinPrefix(",", parts);
      SplitJoin(parts, ',');
      ParseDecimals(xs);
    }
  }
}

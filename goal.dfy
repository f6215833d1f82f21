/**
 * The goal text search over the strings of reCAPTCHA's JavaScript: find the
 * challenge id, look at the ten strings after it, and continue the search
 * eleven strings further on.  A window that runs past the end of the list
 * ends the whole search, keeping what was found; the answer is the match
 * with the smallest (offset, occurrence) pair.
 */
module GoalSearch {
  import opened Wrappers
  import opened Json
  import opened PyStr

  /** `FIND_GOAL_SEARCH_DISTANCE`. */
  const Distance: nat := 10

  /** `pool[k]` is the id searched for. */
  predicate IsAt(pool: seq<string>, k: int, id: string) {
    0 <= k < |pool| && pool[k] == id
  }

  /** `pool.index(id, start)`: the first position at or after `start` holding `id`. */
  function FindFrom(pool: seq<string>, id: string, start: nat): (r: Option<nat>)
    ensures r.Some? ==> start <= r.value < |pool| && IsAt(pool, r.value, id)
    ensures r.Some? ==> forall k :: start <= k < r.value ==> !IsAt(pool, k, id)
    ensures r.None? ==> forall k :: start <= k < |pool| ==> !IsAt(pool, k, id)
    decreases |pool| - start
  {
    if start >= |pool| then None
    else if pool[start] == id then Some(start)
    else FindFrom(pool, id, start + 1)
  }

  /** A matching string: its offset in the window, the occurrence it follows, and the text. */
  datatype Found = Found(offset: nat, occurrence: nat, text: string)

  /** The matches among the first `n` strings after the occurrence at `index`. */
  function WindowUpTo(pool: seq<string>, index: nat, n: nat, matches: string -> bool): seq<Found>
    requires index + n < |pool|
  {
    if n == 0 then []
    else
      var next := pool[index + n];
      WindowUpTo(pool, index, n - 1, matches) + (if matches(next) then [Found(n - 1, index, next)] else [])
  }

  /** How many strings of the window after `index` exist: ten, or fewer at the end of the list. */
  function WindowSize(pool: seq<string>, index: nat): (n: nat)
    requires index < |pool|
    ensures n <= Distance && index + n < |pool|
    ensures n < Distance <==> index + Distance >= |pool|
  {
    if index + Distance < |pool| then Distance else |pool| - index - 1
  }

  /** The matches in the window of the occurrence at `index`, as far as it exists. */
  function WindowAt(pool: seq<string>, index: nat, matches: string -> bool): seq<Found>
    requires index < |pool|
  {
    WindowUpTo(pool, index, WindowSize(pool, index), matches)
  }

  /**
   * All matches the search collects from `start` on: the window of the next
   * occurrence, then, if that window was complete, the search from eleven
   * past it.
   */
  function Scan(pool: seq<string>, id: string, start: nat, matches: string -> bool): seq<Found>
    decreases |pool| - start
  {
    match FindFrom(pool, id, start)
    case None => []
    case Some(index) =>
      var w := WindowAt(pool, index, matches);
      if index + Distance < |pool| then w + Scan(pool, id, index + Distance + 1, matches)
      else w
  }

  /** Tuple order on the first two components of `(offset, occurrence, text)`. */
  predicate KeyLess(a: Found, b: Found) {
    a.offset < b.offset || (a.offset == b.offset && a.occurrence < b.occurrence)
  }

  predicate KeyLessEq(a: Found, b: Found) {
    KeyLess(a, b) || (a.offset == b.offset && a.occurrence == b.occurrence)
  }

  /** `min(matching_strings)`: the earliest match with the least key. */
  function MinFound(ms: seq<Found>): (m: Found)
    requires ms != []
    ensures m in ms
    ensures forall k :: 0 <= k < |ms| ==> KeyLessEq(m, ms[k])
  {
    if |ms| == 1 then ms[0]
    else
      var rest := MinFound(ms[1..]);
      if KeyLessEq(ms[0], rest) then ms[0] else rest
  }

  /** What `find_challenge_goal_text` returns for the id `id`, given the matcher. */
  function GoalText(pool: seq<string>, id: Json, matches: string -> bool): Option<string> {
    if !id.JStr? then None
    else
      var ms := Scan(pool, id.s, 0, matches);
      if ms == [] then None else Some(MinFound(ms).text)
  }

  /**
   * The `for` loop of `try_find`: the matches among the ten strings after
   * `index`; `complete` is false when the window ran off the end (IndexError).
   */
  method CollectWindow(pool: seq<string>, index: nat, matches: string -> bool)
    returns (w: seq<Found>, complete: bool)
    requires index < |pool|
    ensures w == WindowAt(pool, index, matches)
    ensures complete <==> index + Distance < |pool|
  {
    w := [];
    for i := 0 to Distance
      invariant index + i < |pool|
      invariant w == WindowUpTo(pool, index, i, matches)
    {
      if index + i + 1 >= |pool| {
        return w, false;
      }
      var next := pool[index + i + 1];
      if matches(next) {
        w := w + [Found(i, index, next)];
      }
    }
    complete := true;
  }

  /**
   * One round of `try_find`: locate the next occurrence and collect its
   * window.  `next` is where the following round starts, or None when this
   * round ended the search (no occurrence, or the window ran off the end).
   */
  method TryFind(pool: seq<string>, target: string, start: nat, matches: string -> bool)
    returns (w: seq<Found>, next: Option<nat>)
    requires start <= |pool|
    ensures next.Some? ==> start < next.value <= |pool|
    ensures next.Some? ==> w + Scan(pool, target, next.value, matches) == Scan(pool, target, start, matches)
    ensures next.None? ==> w == Scan(pool, target, start, matches)
  {
    var found := FindFrom(pool, target, start);
    if found.None? {
      return [], None;
    }
    var index := found.value;
    var complete;
    w, complete := CollectWindow(pool, index, matches);
    if !complete {
      ScanStops(pool, target, start, matches, index);
      return w, None;
    }
    ScanContinues(pool, target, start, matches, index);
    next := Some(index + Distance + 1);
  }

  /** A window that runs off the end is the last one collected. */
  lemma ScanStops(pool: seq<string>, target: string, start: nat, matches: string -> bool, index: nat)
    requires FindFrom(pool, target, start) == Some(index)
    requires index + Distance >= |pool|
    ensures Scan(pool, target, start, matches) == WindowAt(pool, index, matches)
  {
  }

  /** After a complete window the search resumes eleven past the occurrence. */
  lemma ScanContinues(pool: seq<string>, target: string, start: nat, matches: string -> bool, index: nat)
    requires FindFrom(pool, target, start) == Some(index)
    requires index + Distance < |pool|
    ensures Scan(pool, target, start, matches)
         == WindowAt(pool, index, matches) + Scan(pool, target, index + Distance + 1, matches)
  {
  }

  /**
   * `find_challenge_goal_text`: rounds of `try_find` until one ends the
   * search, then the least match.
   */
  method FindGoalText(pool: seq<string>, id: Json, matches: string -> bool) returns (r: Option<string>)
    ensures r == GoalText(pool, id, matches)
  {
    if !id.JStr? {
      // `index` never finds a non-string among the strings
      return None;
    }
    var target := id.s;
    var start: nat := 0;
    var matching: seq<Found> := [];
    while true
      invariant start <= |pool|
      invariant matching + Scan(pool, target, start, matches) == Scan(pool, target, 0, matches)
      decreases |pool| - start
    {
      var w, next := TryFind(pool, target, start, matches);
      if next.None? {
        matching := matching + w;
        break;
      }
      matching := matching + w;
      start := next.value;
    }
    if matching == [] {
      return None;
    }
    return Some(MinFound(matching).text);
  }

  /** Every window match records a string at its offset that the matcher accepts, in increasing offset order. */
  lemma WindowUpToSound(pool: seq<string>, index: nat, n: nat, matches: string -> bool)
    requires index + n < |pool|
    ensures forall f :: f in WindowUpTo(pool, index, n, matches) ==>
      f.occurrence == index && f.offset < n && pool[index + f.offset + 1] == f.text && matches(f.text)
    ensures forall a, b :: 0 <= a < b < |WindowUpTo(pool, index, n, matches)| ==>
      WindowUpTo(pool, index, n, matches)[a].offset < WindowUpTo(pool, index, n, matches)[b].offset
  {
    WindowUpToMembers(pool, index, n, matches);
    WindowUpToIncreasing(pool, index, n, matches);
  }

  lemma {:induction false} WindowUpToMembers(pool: seq<string>, index: nat, n: nat, matches: string -> bool)
    requires index + n < |pool|
    ensures forall f :: f in WindowUpTo(pool, index, n, matches) ==>
      f.occurrence == index && f.offset < n && pool[index + f.offset + 1] == f.text && matches(f.text)
  {
    if n > 0 {
      WindowUpToMembers(pool, index, n - 1, matches);
      var pre := WindowUpTo(pool, index, n - 1, matches);
      var next := pool[index + n];
      var tail: seq<Found> := if matches(next) then [Found(n - 1, index, next)] else [];
      assert WindowUpTo(pool, index, n, matches) == pre + tail;
      forall f: Found | f in pre + tail
        ensures f.occurrence == index && f.offset < n && pool[index + f.offset + 1] == f.text && matches(f.text)
      {
        if f !in pre {
          assert f == Found(n - 1, index, next);
        }
      }
    }
  }

  lemma {:induction false} WindowUpToIncreasing(pool: seq<string>, index: nat, n: nat, matches: string -> bool)
    requires index + n < |pool|
    ensures forall a, b :: 0 <= a < b < |WindowUpTo(pool, index, n, matches)| ==>
      WindowUpTo(pool, index, n, matches)[a].offset < WindowUpTo(pool, index, n, matches)[b].offset
  {
    if n > 0 {
      WindowUpToIncreasing(pool, index, n - 1, matches);
      WindowUpToMembers(pool, index, n - 1, matches);
      var pre := WindowUpTo(pool, index, n - 1, matches);
      var next := pool[index + n];
      var tail: seq<Found> := if matches(next) then [Found(n - 1, index, next)] else [];
      var w := pre + tail;
      assert WindowUpTo(pool, index, n, matches) == w;
      forall a, b | 0 <= a < b < |w|
        ensures w[a].offset < w[b].offset
      {
        assert w[a] == pre[a] && pre[a] in pre;
        if b >= |pre| {
          assert w[b] == Found(n - 1, index, next);
        } else {
          assert w[b] == pre[b];
        }
      }
    }
  }

  /** Every string of the window that the matcher accepts is recorded. */
  lemma {:induction false} WindowUpToComplete(pool: seq<string>, index: nat, n: nat, matches: string -> bool, i: nat)
    requires index + n < |pool| && i < n && matches(pool[index + i + 1])
    ensures Found(i, index, pool[index + i + 1]) in WindowUpTo(pool, index, n, matches)
  {
    if i < n - 1 {
      WindowUpToComplete(pool, index, n - 1, matches, i);
    }
  }

  /**
   * Soundness of the search: every match lies in the window of a genuine
   * occurrence of the id, at an offset below ten, and is accepted by the matcher.
   */
  lemma {:induction false} ScanSound(pool: seq<string>, id: string, start: nat, matches: string -> bool)
    ensures forall f :: f in Scan(pool, id, start, matches) ==>
      f.offset < Distance && start <= f.occurrence && IsAt(pool, f.occurrence, id) &&
      f.occurrence + f.offset + 1 < |pool| && pool[f.occurrence + f.offset + 1] == f.text && matches(f.text)
    decreases |pool| - start
  {
    match FindFrom(pool, id, start)
    case None =>
    case Some(index) =>
      WindowUpToSound(pool, index, WindowSize(pool, index), matches);
      if index + Distance < |pool| {
        ScanSound(pool, id, index + Distance + 1, matches);
      }
  }

  /**
   * The order of the matches: within one window by offset, and a later
   * occurrence is at least eleven positions further on.
   */
  lemma {:induction false} ScanOrdered(pool: seq<string>, id: string, start: nat, matches: string -> bool)
    ensures forall a, b :: 0 <= a < b < |Scan(pool, id, start, matches)| ==>
      Ordered(Scan(pool, id, start, matches)[a], Scan(pool, id, start, matches)[b])
    decreases |pool| - start
  {
    match FindFrom(pool, id, start)
    case None =>
    case Some(index) =>
      var w := WindowUpTo(pool, index, WindowSize(pool, index), matches);
      assert w == WindowAt(pool, index, matches);
      WindowUpToSound(pool, index, WindowSize(pool, index), matches);
      forall a, b | 0 <= a < b < |w|
        ensures w[a].occurrence == w[b].occurrence && w[a].offset < w[b].offset
      {
        assert w[a] in w && w[b] in w;
      }
      if index + Distance < |pool| {
        ScanOrdered(pool, id, index + Distance + 1, matches);
        ScanSound(pool, id, index + Distance + 1, matches);
        OrderedConcat(w, Scan(pool, id, index + Distance + 1, matches), index);
      }
  }

  /** A window at `index` followed by matches at least eleven further on stays ordered. */
  lemma OrderedConcat(w: seq<Found>, rest: seq<Found>, index: nat)
    requires forall a, b :: 0 <= a < b < |w| ==> w[a].occurrence == w[b].occurrence && w[a].offset < w[b].offset
    requires forall f :: f in w ==> f.occurrence == index
    requires forall f :: f in rest ==> f.occurrence >= index + Distance + 1
    requires forall a, b :: 0 <= a < b < |rest| ==> Ordered(rest[a], rest[b])
    ensures forall a, b :: 0 <= a < b < |w + rest| ==> Ordered((w + rest)[a], (w + rest)[b])
  {
    var s := w + rest;
    forall a, b | 0 <= a < b < |s|
      ensures Ordered(s[a], s[b])
    {
      if b < |w| {
        assert s[a] == w[a] && s[b] == w[b];
      } else if a < |w| {
        assert s[a] == w[a] && s[a] in w;
        assert s[b] == rest[b - |w|] && s[b] in rest;
      } else {
        assert s[a] == rest[a - |w|] && s[b] == rest[b - |w|];
      }
    }
  }

  /** `b` comes after `a` in the search: later in the same window, or in a later window. */
  predicate Ordered(a: Found, b: Found) {
    (a.occurrence == b.occurrence && a.offset < b.offset) || a.occurrence + Distance + 1 <= b.occurrence
  }

  /** So no two matches share an (offset, occurrence) key: the text never decides the minimum. */
  lemma ScanKeysDistinct(pool: seq<string>, id: string, start: nat, matches: string -> bool)
    ensures forall a, b :: 0 <= a < b < |Scan(pool, id, start, matches)| ==>
      Scan(pool, id, start, matches)[a].offset != Scan(pool, id, start, matches)[b].offset ||
      Scan(pool, id, start, matches)[a].occurrence != Scan(pool, id, start, matches)[b].occurrence
  {
    ScanOrdered(pool, id, start, matches);
  }

  /**
   * The search result: None exactly when nothing matched (or the id is not a
   * string); otherwise an accepted string from a match whose key is least.
   */
  lemma GoalTextMeaning(pool: seq<string>, id: Json, matches: string -> bool)
    ensures GoalText(pool, id, matches).None? <==> !id.JStr? || Scan(pool, id.s, 0, matches) == []
    ensures GoalText(pool, id, matches).Some? ==>
      var s := Scan(pool, id.s, 0, matches);
      exists k :: 0 <= k < |s| && s[k].text == GoalText(pool, id, matches).value &&
        matches(s[k].text) && forall j :: 0 <= j < |s| ==> KeyLessEq(s[k], s[j])
  {
    if id.JStr? {
      var s := Scan(pool, id.s, 0, matches);
      ScanSound(pool, id.s, 0, matches);
      if s != [] {
        var m := MinFound(s);
        var k :| 0 <= k < |s| && s[k] == m;
        assert m in s;
      }
    }
  }

  /**
   * The first occurrence's window is inspected in full (as far as the list
   * goes): any accepted string in it is found, so the result is not None.
   */
  lemma FirstWindowSearched(pool: seq<string>, id: string, matches: string -> bool, index: nat, i: nat)
    requires FindFrom(pool, id, 0) == Some(index)
    requires i < Distance && index + i + 1 < |pool| && matches(pool[index + i + 1])
    ensures Found(i, index, pool[index + i + 1]) in Scan(pool, id, 0, matches)
    ensures GoalText(pool, JStr(id), matches).Some?
  {
    WindowUpToComplete(pool, index, WindowSize(pool, index), matches, i);
  }

  /** "select all", the phrase the goal text contains. */
  const Phrase: string := "select all"

  /**
   * A character matches a pattern letter under `re.I`: the same letter in
   * either ASCII case, and for 's' also LATIN SMALL LETTER LONG S.
   */
  predicate FoldMatches(c: char, p: char) {
    AsciiLower(c) == p || (p == 's' && c == '\U{017F}')
  }

  /** `\bselect all\b` matches at position `i` of `s`, ignoring case. */
  predicate SelectAllAt(s: string, i: nat) {
    i + |Phrase| <= |s| &&
    (forall j :: 0 <= j < |Phrase| ==> FoldMatches(s[i + j], Phrase[j])) &&
    (i == 0 || !IsWordChar(s[i - 1])) &&
    (i + |Phrase| == |s| || !IsWordChar(s[i + |Phrase|]))
  }

  /** `re.search(r"\bselect all\b", s, re.I)` succeeds. */
  predicate SelectAllWord(s: string) {
    exists i: nat :: i <= |s| && SelectAllAt(s, i)
  }

  /** The goal text search of the current client, with its matcher. */
  method FindChallengeGoalText(pool: seq<string>, id: Json) returns (r: Option<string>)
    ensures r == GoalText(pool, id, SelectAllWord)
    ensures r.Some? ==> SelectAllWord(r.value)
  {
    r := FindGoalText(pool, id, SelectAllWord);
    GoalTextMeaning(pool, id, SelectAllWord);
  }

  /** Example: the id's window reaches "Select all cats" before the list ends. */
  lemma SearchExample()
    ensures GoalText(["a", "id1", "b", "c", "Select all cats", "d"], JStr("id1"), SelectAllWord)
         == Some("Select all cats")
  {
    var pool := ["a", "id1", "b", "c", "Select all cats", "d"];
    var m := SelectAllWord;
    assert FindFrom(pool, "id1", 0) == Some(1) by {
      assert pool[0] != "id1" by { assert pool[0][0] != "id1"[0]; }
    }
    assert WindowSize(pool, 1) == 4;
    assert SelectAllAt("Select all cats", 0);
    assert !SelectAllWord("b") && !SelectAllWord("c") && !SelectAllWord("d");
    assert WindowUpTo(pool, 1, 4, m) == [Found(2, 1, "Select all cats")];
  }
}

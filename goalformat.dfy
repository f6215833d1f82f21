/**
 * `format_goal`: the goal text as Pango markup.  The part between
 * `<strong>` and `</strong>` is shown extra large; everything else is
 * escaped with `html.escape`.
 */
module GoalFormat {
  import opened Wrappers
  import opened Json
  import opened PyStr
  import opened Types

  /** `html.escape(s)` (with `quote=True`), one character at a time. */
  function EscapeChar(c: char): string {
    if c == '&' then "&amp;"
    else if c == '<' then "&lt;"
    else if c == '>' then "&gt;"
    else if c == '"' then "&quot;"
    else if c == '\'' then "&#x27;"
    else [c]
  }

  function Escape(s: string): string
    decreases |s|
  {
    if s == [] then [] else EscapeChar(s[0]) + Escape(s[1..])
  }

  /** The partner of `Escape`: the five entities it writes are turned back into characters. */
  function Unescape(s: string): string
    decreases |s|
  {
    if s == [] then []
    else if StartsWith(s, "&amp;") then "&" + Unescape(s[5..])
    else if StartsWith(s, "&lt;") then "<" + Unescape(s[4..])
    else if StartsWith(s, "&gt;") then ">" + Unescape(s[4..])
    else if StartsWith(s, "&quot;") then "\"" + Unescape(s[6..])
    else if StartsWith(s, "&#x27;") then "'" + Unescape(s[6..])
    else [s[0]] + Unescape(s[1..])
  }

  lemma UnescapeFront(c: char, rest: string)
    ensures Unescape(EscapeChar(c) + rest) == [c] + Unescape(rest)
  {
    if c == '&' {
      UnescapeAmp(rest);
    } else if c == '<' {
      UnescapeLt(rest);
    } else if c == '>' {
      UnescapeGt(rest);
    } else if c == '"' {
      UnescapeQuot(rest);
    } else if c == '\'' {
      UnescapeApos(rest);
    } else {
      UnescapePlain(c, rest);
    }
  }

  lemma UnescapeAmp(rest: string)
    ensures Unescape("&amp;" + rest) == "&" + Unescape(rest)
  {
    var e := "&amp;" + rest;
    assert e[..5] == "&amp;" && e[5..] == rest;
  }

  lemma UnescapeLt(rest: string)
    ensures Unescape("&lt;" + rest) == "<" + Unescape(rest)
  {
    var e := "&lt;" + rest;
    assert e[1] == 'l';
    assert !StartsWith(e, "&amp;");
    assert e[..4] == "&lt;" && e[4..] == rest;
  }

  lemma UnescapeGt(rest: string)
    ensures Unescape("&gt;" + rest) == ">" + Unescape(rest)
  {
    var e := "&gt;" + rest;
    assert e[1] == 'g';
    assert !StartsWith(e, "&amp;") && !StartsWith(e, "&lt;");
    assert e[..4] == "&gt;" && e[4..] == rest;
  }

  lemma UnescapeQuot(rest: string)
    ensures Unescape("&quot;" + rest) == "\"" + Unescape(rest)
  {
    var e := "&quot;" + rest;
    assert e[1] == 'q';
    assert !StartsWith(e, "&amp;") && !StartsWith(e, "&lt;") && !StartsWith(e, "&gt;");
    assert e[..6] == "&quot;" && e[6..] == rest;
  }

  lemma UnescapeApos(rest: string)
    ensures Unescape("&#x27;" + rest) == "'" + Unescape(rest)
  {
    var e := "&#x27;" + rest;
    assert e[1] == '#';
    assert !StartsWith(e, "&amp;") && !StartsWith(e, "&lt;") && !StartsWith(e, "&gt;") && !StartsWith(e, "&quot;");
    assert e[..6] == "&#x27;" && e[6..] == rest;
  }

  lemma UnescapePlain(c: char, rest: string)
    requires c != '&'
    ensures Unescape([c] + rest) == [c] + Unescape(rest)
  {
    var e := [c] + rest;
    FirstDiffers(e, "&amp;");
    FirstDiffers(e, "&lt;");
    FirstDiffers(e, "&gt;");
    FirstDiffers(e, "&quot;");
    FirstDiffers(e, "&#x27;");
    assert e[1..] == rest;
  }

  lemma FirstDiffers(s: string, prefix: string)
    requires |s| > 0 && |prefix| > 0 && s[0] != prefix[0]
    ensures !StartsWith(s, prefix)
  {
    if |prefix| <= |s| {
      assert s[..|prefix|][0] == s[0];
    }
  }

  /** Unescaping undoes `html.escape`. */
  lemma {:induction false} UnescapeEscape(s: string)
    ensures Unescape(Escape(s)) == s
    decreases |s|
  {
    if s != [] {
      UnescapeEscape(s[1..]);
      UnescapeFront(s[0], Escape(s[1..]));
      assert [s[0]] + s[1..] == s;
    }
  }

  /** Escaped text holds no markup character: no tag can start inside it. */
  lemma {:induction false} EscapeHasNoMarkup(s: string)
    ensures '<' !in Escape(s) && '>' !in Escape(s) && '"' !in Escape(s) && '\'' !in Escape(s)
    decreases |s|
  {
    if s != [] {
      EscapeHasNoMarkup(s[1..]);
      EscapeCharNoMarkup(s[0]);
      NoneInConcat(EscapeChar(s[0]), Escape(s[1..]));
    }
  }

  lemma EscapeCharNoMarkup(c: char)
    ensures '<' !in EscapeChar(c) && '>' !in EscapeChar(c) && '"' !in EscapeChar(c) && '\'' !in EscapeChar(c)
  {
  }

  lemma NoneInConcat(a: string, b: string)
    requires '<' !in a && '>' !in a && '"' !in a && '\'' !in a
    requires '<' !in b && '>' !in b && '"' !in b && '\'' !in b
    ensures '<' !in a + b && '>' !in a + b && '"' !in a + b && '\'' !in a + b
  {
  }

  /** The largest position `i <= limit` at which `pat` occurs in `s`. */
  function LastAt(s: string, pat: string, limit: nat): (r: Option<nat>)
    ensures r.Some? ==> r.value <= limit && OccursAt(s, pat, r.value)
    ensures r.Some? ==> forall i :: r.value < i <= limit ==> !OccursAt(s, pat, i)
    ensures r.None? ==> forall i :: 0 <= i <= limit ==> !OccursAt(s, pat, i)
    decreases limit
  {
    if OccursAt(s, pat, limit) then Some(limit)
    else if limit == 0 then None
    else LastAt(s, pat, limit - 1)
  }

  /** `raw` splits as `prefix <strong> bold </strong> suffix`, with no newline (`.` skips one). */
  predicate IsGoalSplit(raw: string, prefix: string, bold: string, suffix: string) {
    '\n' !in raw && raw == prefix + "<strong>" + bold + "</strong>" + suffix
  }

  /**
   * `re.fullmatch(r"(.*)<strong>(.*)</strong>(.*)", raw)`: both `.*` before
   * `</strong>` are greedy, so the close tag is the last one and the open tag
   * the last one that ends before it.
   */
  function GoalMatch(raw: string): (r: Option<(string, string, string)>)
  {
    if '\n' in raw then None
    else
      match LastAt(raw, "</strong>", |raw|)
      case None => None
      case Some(j) =>
        if j < 8 then None
        else
          match LastAt(raw, "<strong>", j - 8)
          case None => None
          case Some(i) => Some((raw[..i], raw[i + 8..j], raw[j + 9..]))
  }

  lemma SplitAt(raw: string, i: nat, j: nat)
    requires i + 8 <= j && j + 9 <= |raw|
    requires OccursAt(raw, "<strong>", i) && OccursAt(raw, "</strong>", j)
    ensures raw == raw[..i] + "<strong>" + raw[i + 8..j] + "</strong>" + raw[j + 9..]
  {
    assert raw[i..i + 8] == "<strong>" && raw[j..j + 9] == "</strong>";
    assert raw == raw[..i] + raw[i..i + 8] + raw[i + 8..j] + raw[j..j + 9] + raw[j + 9..];
  }

  /** A match is a genuine split of the text. */
  lemma GoalMatchSound(raw: string)
    ensures GoalMatch(raw).Some? ==>
      IsGoalSplit(raw, GoalMatch(raw).value.0, GoalMatch(raw).value.1, GoalMatch(raw).value.2)
  {
    if GoalMatch(raw).Some? {
      var j := LastAt(raw, "</strong>", |raw|).value;
      var i := LastAt(raw, "<strong>", j - 8).value;
      SplitAt(raw, i, j);
    }
  }

  /** Where the tags of a split sit. */
  lemma SplitTags(raw: string, prefix: string, bold: string, suffix: string)
    requires raw == prefix + "<strong>" + bold + "</strong>" + suffix
    ensures OccursAt(raw, "<strong>", |prefix|)
    ensures OccursAt(raw, "</strong>", |prefix| + 8 + |bold|)
    ensures |raw| == |prefix| + |bold| + |suffix| + 17
  {
    var i, j := |prefix|, |prefix| + 8 + |bold|;
    assert raw[i..i + 8] == "<strong>";
    assert raw[j..j + 9] == "</strong>";
  }

  /**
   * Every split is found, and the match is the greedy one: no split has a
   * longer prefix, and none with the same prefix has a longer bold part.
   */
  lemma GoalMatchComplete(raw: string, prefix: string, bold: string, suffix: string)
    requires IsGoalSplit(raw, prefix, bold, suffix)
    ensures GoalMatch(raw).Some?
    ensures |prefix| <= |GoalMatch(raw).value.0|
    ensures |prefix| == |GoalMatch(raw).value.0| ==> |bold| <= |GoalMatch(raw).value.1|
  {
    SplitTags(raw, prefix, bold, suffix);
    GreedyTags(raw, |prefix|, |prefix| + 8 + |bold|);
  }

  /** Tags at `i0` and `j0` are found, and the match takes them or later ones. */
  lemma GreedyTags(raw: string, i0: nat, j0: nat)
    requires '\n' !in raw && i0 + 8 <= j0
    requires OccursAt(raw, "<strong>", i0) && OccursAt(raw, "</strong>", j0)
    ensures GoalMatch(raw).Some?
    ensures i0 <= |GoalMatch(raw).value.0|
    ensures i0 == |GoalMatch(raw).value.0| ==> j0 - i0 - 8 <= |GoalMatch(raw).value.1|
  {
    LastAtFinds(raw, "</strong>", |raw|, j0);
    var j := LastAt(raw, "</strong>", |raw|).value;
    LastAtFinds(raw, "<strong>", j - 8, i0);
    var i := LastAt(raw, "<strong>", j - 8).value;
    assert GoalMatch(raw) == Some((raw[..i], raw[i + 8..j], raw[j + 9..]));
  }

  /** An occurrence at or below the limit is found, at it or after it. */
  lemma LastAtFinds(s: string, pat: string, limit: nat, k: nat)
    requires OccursAt(s, pat, k) && k <= limit
    ensures LastAt(s, pat, limit).Some? && k <= LastAt(s, pat, limit).value
  {
  }

  /** `groups[0] and groups[0] + "\n"`: a non-empty prefix gets a line break. */
  function PrefixLine(prefix: string): (r: string)
    ensures prefix == [] ==> r == []
    ensures prefix != [] ==> r == prefix + "\n"
  {
    if prefix == [] then [] else prefix + "\n"
  }

  /** The markup for a goal split into its three parts. */
  function GoalMarkup(prefix: string, bold: string, suffix: string): string {
    Escape(PrefixLine(prefix)) + "<span size=\"xx-large\">" + Escape(bold) + "</span>" + Escape(suffix)
  }

  /**
   * `format_goal(goal)`: the fallback (`json.dumps(meta)`, here `dumps`)
   * when there is no goal text, the escaped text when it has no bold part,
   * and the markup otherwise.
   */
  function FormatGoal(goal: ChallengeGoal, dumps: Json -> string): (r: string)
    ensures goal.raw.None? ==> r == dumps(goal.meta)
    ensures goal.raw.Some? && GoalMatch(goal.raw.value).None? ==> r == Escape(goal.raw.value)
    ensures goal.raw.Some? && GoalMatch(goal.raw.value).None? ==> Unescape(r) == goal.raw.value
  {
    match goal.raw
    case None => dumps(goal.meta)
    case Some(raw) =>
      match GoalMatch(raw)
      case None => UnescapeEscape(raw); Escape(raw)
      case Some((prefix, bold, suffix)) => GoalMarkup(prefix, bold, suffix)
  }

  /**
   * With a bold part, the markup carries the escaped prefix line, the
   * escaped bold part inside the one span, and the escaped rest: the span's
   * tags are the only `<` in it, and unescaping the pieces gives the text.
   */
  lemma FormatGoalBold(goal: ChallengeGoal, dumps: Json -> string, prefix: string, bold: string, suffix: string)
    requires goal.raw.Some? && GoalMatch(goal.raw.value) == Some((prefix, bold, suffix))
    ensures IsGoalSplit(goal.raw.value, prefix, bold, suffix)
    ensures FormatGoal(goal, dumps) == GoalMarkup(prefix, bold, suffix)
    ensures '<' !in Escape(PrefixLine(prefix)) && '<' !in Escape(bold) && '<' !in Escape(suffix)
    ensures Unescape(Escape(PrefixLine(prefix))) + Unescape(Escape(bold)) + Unescape(Escape(suffix))
         == PrefixLine(prefix) + bold + suffix
  {
    GoalMatchSound(goal.raw.value);
    EscapeHasNoMarkup(PrefixLine(prefix));
    EscapeHasNoMarkup(bold);
    EscapeHasNoMarkup(suffix);
    UnescapeEscape(PrefixLine(prefix));
    UnescapeEscape(bold);
    UnescapeEscape(suffix);
  }

  /** `format_goal_with_note`: the goal markup, a line break, and the note. */
  function FormatGoalWithNote(goal: ChallengeGoal, dumps: Json -> string, note: string): (r: string)
    ensures |r| == |FormatGoal(goal, dumps)| + 1 + |note|
    ensures r[..|FormatGoal(goal, dumps)|] == FormatGoal(goal, dumps)
    ensures r[|FormatGoal(goal, dumps)|..] == "\n" + note
  {
    FormatGoal(goal, dumps) + "\n" + note
  }
}

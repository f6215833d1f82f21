/**
 * The maintenance script that refreshes the table of browser user agents:
 * an HTML data handler that picks the plain-text list out of the page,
 * the filter that keeps at most thirty non-mobile agents, and the layout
 * of the generated Python module.
 */
module UserAgents {
  import opened Wrappers
  import opened PyStr

  // ------------------------------------------------------------ the parser

  /** `\bplain-text\b` matches at position `i` (the pattern starts and ends with a word character). */
  predicate PlainTextAt(data: string, i: nat) {
    OccursAt(data, "plain-text", i) &&
    (i == 0 || !IsWordChar(data[i - 1])) &&
    (i + 10 == |data| || !IsWordChar(data[i + 10]))
  }

  /** `re.search(r"\bplain-text\b", data)` succeeds. */
  predicate PlainTextWord(data: string) {
    exists i :: 0 <= i <= |data| && PlainTextAt(data, i)
  }

  /** `re.match(r"\s*Mozilla/", data)` succeeds: "Mozilla/" after leading whitespace. */
  predicate MozillaStart(data: string) {
    exists k :: 0 <= k <= |data| && (forall j :: 0 <= j < k ==> IsSpace(data[j])) && OccursAt(data, "Mozilla/", k)
  }

  /** The two fields of the parser. */
  datatype ParserState = ParserState(descSeen: bool, result: Option<string>)

  /**
   * `handle_data(data)`: nothing once a result is set or for no data; before
   * the description, look for the `plain-text` word; after it, the first
   * chunk that starts with "Mozilla/" is the result.
   */
  function Step(s: ParserState, data: Option<string>): (r: ParserState)
    ensures s.result.Some? || data.None? ==> r == s
    ensures r.descSeen == (s.descSeen || (s.result.None? && data.Some? && PlainTextWord(data.value)))
    ensures r.result.Some? && s.result.None? ==> s.descSeen && r.result == data && MozillaStart(data.value)
  {
    if s.result.Some? || data.None? then s
    else if !s.descSeen then ParserState(PlainTextWord(data.value), None)
    else if MozillaStart(data.value) then ParserState(true, data)
    else s
  }

  /** `feed(text)` as the chunks of text the HTML parser hands to `handle_data`, in order. */
  function Run(s: ParserState, chunks: seq<string>): ParserState
    decreases |chunks|
  {
    if chunks == [] then s else Run(Step(s, Some(chunks[0])), chunks[1..])
  }

  /** The first position from `from` on whose chunk satisfies `p`. */
  function FirstWhere(chunks: seq<string>, p: string -> bool, from: nat): (r: Option<nat>)
    ensures r.Some? ==> from <= r.value < |chunks| && p(chunks[r.value])
    ensures r.Some? ==> forall k :: from <= k < r.value ==> !p(chunks[k])
    ensures r.None? ==> forall k :: from <= k < |chunks| ==> !p(chunks[k])
    decreases |chunks| - from
  {
    if from >= |chunks| then None
    else if p(chunks[from]) then Some(from)
    else FirstWhere(chunks, p, from + 1)
  }

  /** Once set, the result never changes. */
  lemma {:induction false} RunWriteOnce(s: ParserState, chunks: seq<string>)
    requires s.result.Some?
    ensures Run(s, chunks) == s
    decreases |chunks|
  {
    if chunks != [] {
      RunWriteOnce(Step(s, Some(chunks[0])), chunks[1..]);
    }
  }

  /** After the description: the first chunk from `from` on that starts with "Mozilla/". */
  lemma {:induction false} RunSeen(chunks: seq<string>, from: nat)
    requires from <= |chunks|
    ensures Run(ParserState(true, None), chunks[from..]).result
         == (match FirstWhere(chunks, MozillaStart, from) case None => None case Some(j) => Some(chunks[j]))
    decreases |chunks| - from
  {
    var s := ParserState(true, None);
    if from < |chunks| {
      assert chunks[from..][0] == chunks[from] && chunks[from..][1..] == chunks[from + 1..];
      if MozillaStart(chunks[from]) {
        RunWriteOnce(ParserState(true, Some(chunks[from])), chunks[from + 1..]);
      } else {
        RunSeen(chunks, from + 1);
      }
    }
  }

  /** Before the description: the search for "Mozilla/" starts after the chunk holding `plain-text`. */
  lemma {:induction false} RunUnseen(chunks: seq<string>, from: nat)
    requires from <= |chunks|
    ensures Run(ParserState(false, None), chunks[from..]).result
         == (match FirstWhere(chunks, PlainTextWord, from)
             case None => None
             case Some(i) => Run(ParserState(true, None), chunks[i + 1..]).result)
    decreases |chunks| - from
  {
    if from < |chunks| {
      assert chunks[from..][0] == chunks[from] && chunks[from..][1..] == chunks[from + 1..];
      if !PlainTextWord(chunks[from]) {
        RunUnseen(chunks, from + 1);
      }
    }
  }

  /**
   * The parser's result: the first chunk starting with "Mozilla/" after the
   * first chunk containing the word `plain-text`; that chunk itself is
   * never the result.
   */
  lemma ParserResult(chunks: seq<string>)
    ensures Run(ParserState(false, None), chunks).result
         == (match FirstWhere(chunks, PlainTextWord, 0)
             case None => None
             case Some(i) =>
               match FirstWhere(chunks, MozillaStart, i + 1)
               case None => None
               case Some(j) => Some(chunks[j]))
  {
    assert chunks[0..] == chunks;
    RunUnseen(chunks, 0);
    match FirstWhere(chunks, PlainTextWord, 0)
    case None =>
    case Some(i) => RunSeen(chunks, i + 1);
  }

  /** `Parser`: an HTML parser that keeps the two fields of `ParserState`. */
  class Parser {
    var descSeen: bool
    var result: Option<string>

    constructor()
      ensures !descSeen && result.None?
    {
      descSeen := false;
      result := None;
    }

    method HandleData(data: Option<string>)
      modifies this
      ensures ParserState(descSeen, result) == Step(old(ParserState(descSeen, result)), data)
    {
      if result.Some? {
        return;
      }
      if data.None? {
        return;
      }
      if !descSeen {
        descSeen := PlainTextWord(data.value);
        return;
      }
      if MozillaStart(data.value) {
        result := data;
      }
    }

    /** `feed`: every chunk of text goes through `handle_data`. */
    method Feed(chunks: seq<string>)
      modifies this
      ensures ParserState(descSeen, result) == Run(old(ParserState(descSeen, result)), chunks)
    {
      var i := 0;
      while i < |chunks|
        invariant i <= |chunks|
        invariant Run(ParserState(descSeen, result), chunks[i..]) == Run(old(ParserState(descSeen, result)), chunks)
        decreases |chunks| - i
      {
        assert chunks[i..][0] == chunks[i] && chunks[i..][1..] == chunks[i + 1..];
        HandleData(Some(chunks[i]));
        i := i + 1;
      }
    }
  }

  // ------------------------------------------------------------- get_agents

  /** `NUM_ENTRIES`. */
  const NumEntries := 30

  /** `s` begins with the word `w` (which starts and ends with a letter). */
  predicate StartsWithWord(s: string, w: string) {
    StartsWith(s, w) && (|s| == |w| || !IsWordChar(s[|w|]))
  }

  /** `re.match(r"\b(iPhone|iPad|Android)\b", agent)`: anchored at the start of the line. */
  predicate Mobile(agent: string) {
    StartsWithWord(agent, "iPhone") || StartsWithWord(agent, "iPad") || StartsWithWord(agent, "Android")
  }

  /** The lines that are not mobile agents, in order. */
  function Keep(lines: seq<string>): (r: seq<string>)
    ensures |r| <= |lines|
    decreases |lines|
  {
    if lines == [] then []
    else Keep(lines[..|lines| - 1]) + (if Mobile(lines[|lines| - 1]) then [] else [lines[|lines| - 1]])
  }

  /** `data.strip().splitlines()[:NUM_ENTRIES]`. */
  function FirstLines(data: string): (r: seq<string>)
    ensures |r| <= NumEntries
  {
    var lines := SplitLines(Strip(data));
    if |lines| > NumEntries then lines[..NumEntries] else lines
  }

  /** `get_agents(data)`: the non-mobile lines among the first thirty, stopping at thirty agents. */
  method GetAgents(data: string) returns (agents: seq<string>)
    ensures agents == Keep(FirstLines(data))
    ensures |agents| <= NumEntries
  {
    var lines := FirstLines(data);
    agents := [];
    var i := 0;
    while i < |lines| && |agents| < NumEntries
      invariant i <= |lines|
      invariant agents == Keep(lines[..i])
      decreases |lines| - i
    {
      assert lines[..i + 1][..i] == lines[..i];
      if !Mobile(lines[i]) {
        agents := agents + [lines[i]];
      }
      i := i + 1;
    }
    assert lines[..|lines|] == lines;
  }

  /** `a` is a subsequence of `b`. */
  predicate Subsequence(a: seq<string>, b: seq<string>)
    decreases |b|
  {
    a == [] ||
    (b != [] &&
     ((a[|a| - 1] == b[|b| - 1] && Subsequence(a[..|a| - 1], b[..|b| - 1])) || Subsequence(a, b[..|b| - 1])))
  }

  /** The kept agents are input lines in their order. */
  lemma {:induction false} KeepSubsequence(lines: seq<string>)
    ensures Subsequence(Keep(lines), lines)
    decreases |lines|
  {
    if lines != [] {
      var init := lines[..|lines| - 1];
      KeepSubsequence(init);
      assert lines[..|lines| - 1] == init;
      if !Mobile(lines[|lines| - 1]) {
        assert Keep(lines)[..|Keep(lines)| - 1] == Keep(init);
      } else {
        assert Keep(lines) == Keep(init);
      }
    }
  }

  /** No kept agent is a mobile one, and each is an input line. */
  lemma {:induction false} KeepSound(lines: seq<string>)
    ensures forall a :: a in Keep(lines) ==> a in lines && !Mobile(a)
    decreases |lines|
  {
    if lines != [] {
      var init := lines[..|lines| - 1];
      KeepSound(init);
      assert forall a :: a in init ==> a in lines;
    }
  }

  /** Every line that is not a mobile agent is kept. */
  lemma {:induction false} KeepComplete(lines: seq<string>)
    ensures forall k :: 0 <= k < |lines| && !Mobile(lines[k]) ==> lines[k] in Keep(lines)
    decreases |lines|
  {
    if lines != [] {
      var init := lines[..|lines| - 1];
      KeepComplete(init);
      forall k | 0 <= k < |lines| - 1 && !Mobile(lines[k])
        ensures lines[k] in Keep(lines)
      {
        assert lines[k] == init[k];
      }
    }
  }

  // ----------------------------------------------------------- write_agents

  /** `repr` picks single quotes unless the text has a single quote and no double quote. */
  function Quote(s: string): (q: char)
    ensures q == '\'' || q == '"'
  {
    if '\'' in s && '"' !in s then '"' else '\''
  }

  function HexDigit(d: nat): (c: char)
    requires d < 16
  {
    if d < 10 then ('0' as int + d) as char else ('a' as int + d - 10) as char
  }

  function HexValue(c: char): Option<nat> {
    if '0' <= c <= '9' then Some(c as int - '0' as int)
    else if 'a' <= c <= 'f' then Some(c as int - 'a' as int + 10)
    else None
  }

  /** A control character `repr` writes as `\xhh`. */
  predicate IsControl(c: char) {
    c < ' ' || c == '\U{7f}'
  }

  /** How `repr` writes one character inside quotes `q`. */
  function ReprChar(c: char, q: char): string {
    if c == '\\' || c == q then ['\\', c]
    else if c == '\t' then "\\t"
    else if c == '\n' then "\\n"
    else if c == '\r' then "\\r"
    else if IsControl(c) then ['\\', 'x', HexDigit(c as int / 16), HexDigit(c as int % 16)]
    else [c]
  }

  function ReprBody(s: string, q: char): string
    decreases |s|
  {
    if s == [] then [] else ReprChar(s[0], q) + ReprBody(s[1..], q)
  }

  /** `repr(agent)`. */
  function Repr(s: string): string {
    [Quote(s)] + ReprBody(s, Quote(s)) + [Quote(s)]
  }

  /** The character an escape (the text after a backslash) stands for, and its length. */
  function EscapeValue(t: string): Option<(char, nat)> {
    if t == [] then None
    else if t[0] == '\\' || t[0] == '\'' || t[0] == '"' then Some((t[0], 1))
    else if t[0] == 't' then Some(('\t', 1))
    else if t[0] == 'n' then Some(('\n', 1))
    else if t[0] == 'r' then Some(('\r', 1))
    else if t[0] == 'x' && |t| >= 3 && HexValue(t[1]).Some? && HexValue(t[2]).Some? then
      Some(((HexValue(t[1]).value * 16 + HexValue(t[2]).value) as char, 3))
    else None
  }

  /**
   * Python reading the rest of a string literal opened with `q`: the text up
   * to the closing quote with its escapes resolved, and what follows.  A
   * backslash before anything else stands for itself.
   */
  function ReadLiteral(t: string, q: char): Option<(string, string)>
    decreases |t|
  {
    if t == [] then None
    else if t[0] == q then Some(([], t[1..]))
    else if t[0] == '\\' && EscapeValue(t[1..]).Some? then
      var (c, n) := EscapeValue(t[1..]).value;
      Prepend(c, ReadLiteral(t[n + 1..], q))
    else Prepend(t[0], ReadLiteral(t[1..], q))
  }

  function Prepend(c: char, r: Option<(string, string)>): Option<(string, string)> {
    match r
    case None => None
    case Some((text, rest)) => Some(([c] + text, rest))
  }

  lemma ReadEscaped(c: char, q: char, rest: string)
    requires c == '\\' || c == q
    requires q == '\'' || q == '"'
    ensures ReadLiteral(['\\', c] + rest, q) == Prepend(c, ReadLiteral(rest, q))
  {
    var t := ['\\', c] + rest;
    assert t[1..] == [c] + rest && t[2..] == rest;
  }

  lemma ReadNamed(c: char, e: char, q: char, rest: string)
    requires (c == '\t' && e == 't') || (c == '\n' && e == 'n') || (c == '\r' && e == 'r')
    requires q == '\'' || q == '"'
    ensures ReadLiteral(['\\', e] + rest, q) == Prepend(c, ReadLiteral(rest, q))
  {
    var t := ['\\', e] + rest;
    assert t[1..] == [e] + rest && t[2..] == rest;
  }

  lemma ReadHex(c: char, q: char, rest: string)
    requires IsControl(c) && c != '\t' && c != '\n' && c != '\r' && (q == '\'' || q == '"')
    ensures ReadLiteral(ReprChar(c, q) + rest, q) == Prepend(c, ReadLiteral(rest, q))
  {
    var hi, lo := c as int / 16, c as int % 16;
    assert ReprChar(c, q) == ['\\', 'x', HexDigit(hi), HexDigit(lo)] by {
      assert c != '\\' && c != q;
    }
    var t := ['\\', 'x', HexDigit(hi), HexDigit(lo)] + rest;
    assert HexValue(HexDigit(hi)) == Some(hi) && HexValue(HexDigit(lo)) == Some(lo);
    assert t[1..] == ['x', HexDigit(hi), HexDigit(lo)] + rest && t[4..] == rest;
    assert (hi * 16 + lo) as char == c;
  }

  lemma ReadPlain(c: char, q: char, rest: string)
    requires c != q && c != '\\'
    ensures ReadLiteral([c] + rest, q) == Prepend(c, ReadLiteral(rest, q))
  {
    var t := [c] + rest;
    assert t[1..] == rest;
  }

  /** Reading one written character gives it back. */
  lemma ReadReprChar(c: char, q: char, rest: string)
    requires q == '\'' || q == '"'
    ensures ReadLiteral(ReprChar(c, q) + rest, q) == Prepend(c, ReadLiteral(rest, q))
  {
    if c == '\\' || c == q {
      ReadEscaped(c, q, rest);
    } else if c == '\t' {
      ReadNamed(c, 't', q, rest);
    } else if c == '\n' {
      ReadNamed(c, 'n', q, rest);
    } else if c == '\r' {
      ReadNamed(c, 'r', q, rest);
    } else if IsControl(c) {
      ReadHex(c, q, rest);
    } else {
      ReadPlain(c, q, rest);
    }
  }

  /** Python reads the written body back up to its closing quote. */
  lemma {:induction false} ReadReprBody(s: string, q: char, rest: string)
    requires q == '\'' || q == '"'
    ensures ReadLiteral(ReprBody(s, q) + ([q] + rest), q) == Some((s, rest))
    decreases |s|
  {
    if s == [] {
      assert ReprBody(s, q) + ([q] + rest) == [q] + rest;
      assert ([q] + rest)[1..] == rest;
    } else {
      ReadReprBody(s[1..], q, rest);
      ReadReprChar(s[0], q, ReprBody(s[1..], q) + ([q] + rest));
      assert ReprBody(s, q) == ReprChar(s[0], q) + ReprBody(s[1..], q);
      Regroup(ReprChar(s[0], q), ReprBody(s[1..], q), [q] + rest);
      assert [s[0]] + s[1..] == s;
    }
  }

  /** Evaluating `repr(agent)` in the generated module gives back the agent: the quote opens and closes the literal. */
  lemma ReprReadsBack(s: string, rest: string)
    ensures Repr(s)[0] == Quote(s)
    ensures ReadLiteral(Repr(s)[1..] + rest, Quote(s)) == Some((s, rest))
  {
    var q := Quote(s);
    ReadReprBody(s, q, rest);
    var body := ReprBody(s, q);
    assert Repr(s) == [q] + (body + [q]);
    assert Repr(s)[1..] == body + [q];
    assert (body + [q]) + rest == body + ([q] + rest);
  }

  const Header: string :=
    "# This file was automatically generated by update_user_agents.py using data\n"
    + "# from <https://techblog.willshouse.com/2012/01/03/most-common-user-agents/>.\n"
    + "\n"
    + "# flake8: noqa\n"
    + "USER_AGENTS = [\n"

  const Footer: string := "]\n"

  /** One entry of the list: four spaces, the literal, a comma, a line break. */
  function AgentLine(agent: string): string {
    "    " + Repr(agent) + ",\n"
  }

  function AgentLines(agents: seq<string>): string
    decreases |agents|
  {
    if agents == [] then [] else AgentLines(agents[..|agents| - 1]) + AgentLine(agents[|agents| - 1])
  }

  /** Each entry of the body decodes to its agent, followed by the rest of the file. */
  lemma AgentLineReadsBack(agent: string, rest: string)
    ensures var line := AgentLine(agent) + rest;
      line[..5] == "    " + [Quote(agent)] && ReadLiteral(line[5..], Quote(agent)) == Some((agent, ",\n" + rest))
  {
    var line := AgentLine(agent) + rest;
    ReprReadsBack(agent, ",\n" + rest);
    assert line == "    " + Repr(agent) + (",\n" + rest);
    assert line[5..] == Repr(agent)[1..] + (",\n" + rest);
  }

  lemma AgentLinesSnoc(agents: seq<string>, i: nat)
    requires i < |agents|
    ensures AgentLines(agents[..i + 1]) == AgentLines(agents[..i]) + AgentLine(agents[i])
  {
    assert agents[..i + 1][..i] == agents[..i];
  }

  lemma Regroup(a: string, b: string, c: string)
    ensures (a + b) + c == a + (b + c)
  {
  }

  lemma Append(a: string, b: string, c: string)
    ensures a + b + c == a + (b + c)
  {
  }

  /** `write_agents(agents, file)`: the text written to the file. */
  method WriteAgents(agents: seq<string>) returns (out: string)
    ensures out == Header + AgentLines(agents) + Footer
  {
    out := Header;
    var i := 0;
    while i < |agents|
      invariant i <= |agents|
      invariant out == Header + AgentLines(agents[..i])
      decreases |agents| - i
    {
      AgentLinesSnoc(agents, i);
      Append(Header, AgentLines(agents[..i]), AgentLine(agents[i]));
      out := out + AgentLine(agents[i]);
      i := i + 1;
    }
    assert agents[..|agents|] == agents;
    out := out + Footer;
  }
}

/**
 * The older single-file client (`librecaptcha.py`) where it differs from the
 * current one: its site-URL check order, the validation of typed tile
 * numbers, its case-sensitive goal search with the tags stripped, its
 * header and parameter handling, and the classification step of
 * `solve_challenge` inside the `solve_all` loop.  Its `rc_base64`,
 * `load_rc_json`, `get_meta` and `get_rresp` are the same as the current
 * ones and are shared with them.
 */
module Legacy {
  import opened Wrappers
  import opened Json
  import opened Errors
  import opened PyStr
  import opened SiteUrl
  import opened GoalSearch
  import opened Params

  // ---------------------------------------------------------------- site URL

  /**
   * `get_rc_site_url` of the older module: scheme present, scheme allowed,
   * then hostname, each a ValueError; then the port as in the current one.
   */
  function LegacyRcSiteUrl(u: ParsedUrl): (r: Result<string, Error>)
    ensures u.scheme == [] ==> r == Failure(UrlValueError(NoScheme))
    ensures u.scheme != [] && u.scheme != "http" && u.scheme != "https" ==> r == Failure(UrlValueError(InvalidScheme(u.scheme)))
    ensures (u.scheme == "http" || u.scheme == "https") && (u.hostname.None? || u.hostname == Some(""))
            ==> r == Failure(UrlValueError(NoHostname))
  {
    if u.scheme == [] then Failure(UrlValueError(NoScheme))
    else if u.scheme != "http" && u.scheme != "https" then Failure(UrlValueError(InvalidScheme(u.scheme)))
    else if u.hostname.None? || u.hostname.value == "" then Failure(UrlValueError(NoHostname))
    else if u.port.BadPort? then Failure(UrlValueError(InvalidPort))
    else
      var port := if u.port.Port? then u.port.n else DefaultPort(u.scheme);
      Success(u.scheme + "://" + u.hostname.value + ":" + NatToDecimal(port))
  }

  /** Both versions accept the same URLs and give the same origin; only the error reported differs. */
  lemma LegacyRcSiteUrlAgrees(u: ParsedUrl)
    ensures LegacyRcSiteUrl(u).Success? <==> RcSiteUrl(u).Success?
    ensures LegacyRcSiteUrl(u).Success? ==> LegacyRcSiteUrl(u).value == RcSiteUrl(u).value
  {
  }

  /** A URL with neither hostname nor allowed scheme: the older check blames the scheme, the current one the hostname. */
  lemma CheckOrderDiffers()
    ensures LegacyRcSiteUrl(ParsedUrl("ftp", None, NoPort)) == Failure(UrlValueError(InvalidScheme("ftp")))
    ensures RcSiteUrl(ParsedUrl("ftp", None, NoPort)) == Failure(SiteUrlParseError(NoHostname))
  {
    assert "ftp" != "http" && "ftp" != "https" by {
      assert "ftp"[0] != "http"[1];
    }
  }

  // ------------------------------------------------------------ read_indices

  /** `[int(i) - 1 for i in tokens]`: None when a token is not an integer (ValueError). */
  function ParseIndices(tokens: seq<string>): Option<seq<int>>
    decreases |tokens|
  {
    if tokens == [] then Some([])
    else
      match (PyInt(tokens[0]), ParseIndices(tokens[1..]))
      case (Some(n), Some(rest)) => Some([n - 1] + rest)
      case _ => None
  }

  /** The parse fails exactly on a token that is not an integer, and otherwise each index is one less than its number. */
  lemma {:induction false} ParseIndicesMeaning(tokens: seq<string>)
    ensures ParseIndices(tokens).None? <==> exists i :: 0 <= i < |tokens| && PyInt(tokens[i]).None?
    ensures ParseIndices(tokens).Some? ==> |ParseIndices(tokens).value| == |tokens|
    ensures ParseIndices(tokens).Some? ==>
      forall i :: 0 <= i < |tokens| ==> PyInt(tokens[i]) == Some(ParseIndices(tokens).value[i] + 1)
    decreases |tokens|
  {
    if tokens != [] {
      ParseIndicesMeaning(tokens[1..]);
      assert forall i :: 1 <= i < |tokens| ==> tokens[i] == tokens[1..][i - 1];
      if PyInt(tokens[0]).Some? && ParseIndices(tokens[1..]).None? {
        var i :| 0 <= i < |tokens[1..]| && PyInt(tokens[1..][i]).None?;
        assert PyInt(tokens[i + 1]).None?;
      }
    }
  }

  /** `all(0 <= i < max_index for i in indices)`. */
  predicate InBounds(indices: seq<int>, maxIndex: int) {
    forall i :: 0 <= i < |indices| ==> 0 <= indices[i] < maxIndex
  }

  /** A typed line is accepted: every word is an integer and every index is on the grid. */
  predicate Accepts(line: string, maxIndex: int) {
    var parsed := ParseIndices(SplitWhitespace(line));
    parsed.Some? && InBounds(parsed.value, maxIndex)
  }

  /** The first accepted line from `from` on. */
  function FirstAccepted(lines: seq<string>, maxIndex: int, from: nat): (r: Option<nat>)
    ensures r.Some? ==> from <= r.value < |lines| && Accepts(lines[r.value], maxIndex)
    ensures r.Some? ==> forall k :: from <= k < r.value ==> !Accepts(lines[k], maxIndex)
    ensures r.None? ==> forall k :: from <= k < |lines| ==> !Accepts(lines[k], maxIndex)
    decreases |lines| - from
  {
    if from >= |lines| then None
    else if Accepts(lines[from], maxIndex) then Some(from)
    else FirstAccepted(lines, maxIndex, from + 1)
  }

  /**
   * `read_indices(prompt, max_index)` over the lines the user types: it
   * asks again after a word that is not a number or a number off the grid,
   * and returns the indices (one less than the numbers typed) of the first
   * acceptable line; running out of input is EOFError.
   */
  method ReadIndices(lines: seq<string>, maxIndex: int) returns (r: Result<seq<int>, Error>)
    ensures FirstAccepted(lines, maxIndex, 0).None? ==> r == Failure(InputExhausted)
    ensures FirstAccepted(lines, maxIndex, 0).Some? ==>
      r == Success(ParseIndices(SplitWhitespace(lines[FirstAccepted(lines, maxIndex, 0).value])).value)
    ensures r.Success? ==> InBounds(r.value, maxIndex)
  {
    var k: nat := 0;
    while k < |lines|
      invariant k <= |lines|
      invariant FirstAccepted(lines, maxIndex, 0) == FirstAccepted(lines, maxIndex, k)
      decreases |lines| - k
    {
      var indices := ParseIndices(SplitWhitespace(lines[k]));
      if indices.Some? && InBounds(indices.value, maxIndex) {
        return Success(indices.value);
      }
      k := k + 1;
    }
    return Failure(InputExhausted);
  }

  // ----------------------------------------------------- find_challenge_goal

  /** The older matcher: a case-sensitive `startswith("Select all ")`. */
  predicate StartsSelectAll(s: string) {
    StartsWith(s, "Select all ")
  }

  /** What `find_challenge_goal` returns: the least match, with `<strong>` and `</strong>` removed. */
  function LegacyGoal(pool: seq<string>, id: Json): Option<string> {
    match GoalText(pool, id, StartsSelectAll)
    case None => None
    case Some(text) => Some(Replace(Replace(text, "<strong>", ""), "</strong>", ""))
  }

  /** `ReCaptcha.find_challenge_goal`: the same window loop with the older matcher. */
  method FindChallengeGoal(pool: seq<string>, id: Json) returns (r: Option<string>)
    ensures r == LegacyGoal(pool, id)
    ensures r.Some? ==> exists text :: StartsSelectAll(text) && r.value == Replace(Replace(text, "<strong>", ""), "</strong>", "")
  {
    var text := FindGoalText(pool, id, StartsSelectAll);
    GoalTextMeaning(pool, id, StartsSelectAll);
    if text.None? {
      return None;
    }
    return Some(Replace(Replace(text.value, "<strong>", ""), "</strong>", ""));
  }

  /** Every string the older matcher accepts the current one accepts too. */
  lemma StartsSelectAllIsWord(s: string)
    requires StartsSelectAll(s)
    ensures SelectAllWord(s)
  {
    assert s[..11] == "Select all ";
    forall j | 0 <= j < |Phrase|
      ensures FoldMatches(s[j], Phrase[j])
    {
      assert s[j] == s[..11][j];
    }
    assert s[10] == ' ' && !IsWordChar(s[10]);
    assert SelectAllAt(s, 0);
  }

  /** The converse fails: the current matcher finds the phrase anywhere, in any case. */
  lemma WordIsNotPrefix()
    ensures SelectAllWord("Please select all cats") && !StartsSelectAll("Please select all cats")
  {
    var s := "Please select all cats";
    assert SelectAllAt(s, 7);
    assert s[0] != "Select all "[0];
  }

  // ------------------------------------------------------------- headers

  /** A `dict` of headers that callers share by reference. */
  class HeaderDict {
    var entries: map<string, string>

    constructor(entries: map<string, string>)
      ensures this.entries == entries
    {
      this.entries := entries;
    }
  }

  /**
   * `get_headers(headers)`: a missing or empty dict is replaced by a new
   * one; a non-empty dict is completed in place and returned, so the
   * caller's dict gains the User-Agent.
   */
  method GetHeaders(headers: HeaderDict?, userAgent: string) returns (r: HeaderDict)
    modifies headers
    ensures headers != null && old(headers.entries) != map[] ==> r == headers
    ensures headers == null || old(headers.entries) == map[] ==> fresh(r) && (headers != null ==> headers.entries == map[])
    ensures r.entries == WithAgent(if headers == null then None else Some(old(headers.entries)), userAgent)
  {
    if headers == null || headers.entries == map[] {
      r := new HeaderDict(map[]);
    } else {
      r := headers;
    }
    if "User-Agent" !in r.entries {
      r.entries := r.entries["User-Agent" := userAgent];
    }
  }

  // ------------------------------------------------------ get/post params

  /** `params or {}`: an absent or empty dict becomes a new empty one. */
  function OrEmpty<V>(m: Option<map<string, V>>): map<string, V> {
    if m.Some? then m.value else map[]
  }

  /** The query of the older `get`: with `api`, `k` and `v` are set whatever the caller gave. */
  function LegacyGetParams(params: Option<map<string, Json>>, api: bool, apiKey: string, rcVersion: Json): (r: map<string, Json>)
    ensures api ==> "k" in r && r["k"] == JStr(apiKey) && "v" in r && r["v"] == rcVersion
    ensures forall key :: key != "k" && key != "v" ==> (key in r <==> key in OrEmpty(params))
    ensures forall key :: key in OrEmpty(params) && (!api || (key != "k" && key != "v")) ==> key in r && r[key] == OrEmpty(params)[key]
    ensures !api ==> r == OrEmpty(params)
  {
    var base := OrEmpty(params);
    if api then base["k" := JStr(apiKey)]["v" := rcVersion] else base
  }

  /** The query of the older `post`: with `api`, `k` is set. */
  function LegacyPostParams(params: Option<map<string, Json>>, api: bool, apiKey: string): (r: map<string, Json>)
    ensures api ==> "k" in r && r["k"] == JStr(apiKey)
    ensures forall key :: key != "k" ==> (key in r <==> key in OrEmpty(params)) && (key in r ==> r[key] == OrEmpty(params)[key])
    ensures !api ==> r == OrEmpty(params)
  {
    var base := OrEmpty(params);
    if api then base["k" := JStr(apiKey)] else base
  }

  /** The form of the older `post`: with `api`, `v` is set. */
  function LegacyPostData(data: Option<map<string, Json>>, api: bool, rcVersion: Json): (r: map<string, Json>)
    ensures api ==> "v" in r && r["v"] == rcVersion
    ensures forall key :: key != "v" ==> (key in r <==> key in OrEmpty(data)) && (key in r ==> r[key] == OrEmpty(data)[key])
    ensures !api ==> r == OrEmpty(data)
  {
    var base := OrEmpty(data);
    if api then base["v" := rcVersion] else base
  }

  /** A caller's own `k` is overwritten by the older `get` but kept by the current one. */
  lemma OverwriteDiffers(apiKey: string, rcVersion: string, p: Json)
    requires apiKey != "mine"
    ensures LegacyGetParams(Some(map["k" := JStr("mine")]), true, apiKey, JStr(rcVersion))["k"] == JStr(apiKey)
    ensures GetQuery(Some(map["k" := JStr("mine")]), apiKey, rcVersion, p)["k"] == JStr("mine")
  {
    var m := map["k" := JStr("mine")];
    FillSpec(m, "k", JStr(apiKey));
    FillSpec(Fill(m, "k", JStr(apiKey)), "v", JStr(rcVersion));
    FillSpec(Fill(Fill(m, "k", JStr(apiKey)), "v", JStr(rcVersion)), "p", p);
  }

  // ------------------------------------------------- solve_challenge / solve_all

  datatype LegacySolver = LegacyDynamic | LegacyMulti

  /**
   * The classification at the start of `solve_challenge`: the type
   * `rresp[5]` is refused when it is "default" or unknown; then `pmeta` is
   * `rresp[4]` and the new token `rresp[1]`.
   */
  function Classify(rresp: Json): (r: Result<(LegacySolver, Json, Json), Error>)
    ensures Item(rresp, 5) == Some(JStr("default")) ==> r == Failure(LegacyBlocked)
    ensures Item(rresp, 5).Some? && Item(rresp, 5).value !in {JStr("default"), JStr("dynamic"), JStr("multicaptcha")}
            ==> r == Failure(UnsupportedChallenge(Item(rresp, 5).value))
    ensures Item(rresp, 5).Some? && Item(rresp, 5).value in {JStr("dynamic"), JStr("multicaptcha")}
            ==> (r.Success? <==> Item(rresp, 4).Some? && Item(rresp, 1).Some?)
    ensures r.Success? ==> Item(rresp, 5) == Some(JStr(if r.value.0 == LegacyDynamic then "dynamic" else "multicaptcha"))
    ensures r.Success? ==> Item(rresp, 4) == Some(r.value.1) && Item(rresp, 1) == Some(r.value.2)
  {
    match Item(rresp, 5)
    case None => Failure(ShapeError)
    case Some(t) =>
      if t == JStr("default") then Failure(LegacyBlocked)
      else if t != JStr("dynamic") && t != JStr("multicaptcha") then Failure(UnsupportedChallenge(t))
      else
        match (Item(rresp, 4), Item(rresp, 1))
        case (Some(pmeta), Some(token)) => Success((if t == JStr("dynamic") then LegacyDynamic else LegacyMulti, pmeta, token))
        case _ => Failure(ShapeError)
  }

  /**
   * The outcome of `solve_all`: while the reply holds an `rresp` (not
   * None), classify it and take the next verify outcome (the verify token
   * and the next `rresp`); `token` is the current token, `last` the last
   * verify token.  First component: the returned token or the error.
   */
  function SolveRun(rresp: Json, outcomes: seq<Result<(Json, Json), Error>>, last: Option<Json>, token: Json): (r: (Result<Json, Error>, Json))
    decreases |outcomes|
  {
    if rresp == JNull then (if last.None? then Failure(UnboundToken) else Success(last.value), token)
    else
      match Classify(rresp)
      case Failure(e) => (Failure(e), token)
      case Success((_, _, next)) =>
        if outcomes == [] then (Failure(TransportError), next)
        else
          match outcomes[0]
          case Failure(e) => (Failure(e), next)
          case Success((uvToken, rresp')) => SolveRun(rresp', outcomes[1..], Some(uvToken), next)
  }

  /** No first challenge leaves the token unbound. */
  lemma SolveRunUnbound(outcomes: seq<Result<(Json, Json), Error>>, token: Json)
    ensures SolveRun(JNull, outcomes, None, token) == (Failure(UnboundToken), token)
  {
  }

  /**
   * A token returned after at least one challenge is the token of a verify
   * outcome with no further `rresp`, and every verify before it asked for
   * another challenge.
   */
  lemma {:induction false} SolveRunToken(rresp: Json, outcomes: seq<Result<(Json, Json), Error>>, last: Option<Json>, token: Json)
    requires rresp != JNull
    requires SolveRun(rresp, outcomes, last, token).0.Success?
    ensures exists k :: (0 <= k < |outcomes| && outcomes[k] == Success((SolveRun(rresp, outcomes, last, token).0.value, JNull))
      && forall j :: 0 <= j < k ==> outcomes[j].Success? && outcomes[j].value.1 != JNull)
    decreases |outcomes|
  {
    var next := Classify(rresp).value.2;
    var tok := outcomes[0].value.0;
    var rresp' := outcomes[0].value.1;
    if rresp' == JNull {
      assert outcomes[0] == Success((tok, JNull));
    } else {
      SolveRunToken(rresp', outcomes[1..], Some(tok), next);
      var k :| 0 <= k < |outcomes[1..]| && outcomes[1..][k] == Success((SolveRun(rresp', outcomes[1..], Some(tok), next).0.value, JNull))
        && forall j :: 0 <= j < k ==> outcomes[1..][j].Success? && outcomes[1..][j].value.1 != JNull;
      assert outcomes[k + 1] == outcomes[1..][k];
      forall j | 0 <= j < k + 1
        ensures outcomes[j].Success? && outcomes[j].value.1 != JNull
      {
        if j > 0 {
          assert outcomes[j] == outcomes[1..][j - 1];
        }
      }
    }
  }

  /** The older client's token state. */
  class LegacyReCaptcha {
    var currentToken: Json

    constructor()
      ensures currentToken == JNull
    {
      currentToken := JNull;
    }

    /**
     * The first part of `solve_challenge`: a refused type or a malformed
     * reply raises before `current_token` changes; otherwise the token is
     * `rresp[1]` and the solver class is chosen.
     */
    method StartChallenge(rresp: Json) returns (r: Result<(LegacySolver, Json), Error>)
      modifies this
      ensures Classify(rresp).Failure? ==> r == Failure(Classify(rresp).error) && currentToken == old(currentToken)
      ensures Classify(rresp).Success? ==>
        r == Success((Classify(rresp).value.0, Classify(rresp).value.1)) && currentToken == Classify(rresp).value.2
    {
      var c := Classify(rresp);
      if c.Failure? {
        return Failure(c.error);
      }
      currentToken := c.value.2;
      return Success((c.value.0, c.value.1));
    }

    /**
     * `solve_all` from the first `rresp`: each round classifies the
     * challenge and takes the next verify outcome (what running the solver
     * and `verify` returned), until a verify gives no `rresp`.
     */
    method SolveAll(first: Json, outcomes: seq<Result<(Json, Json), Error>>) returns (r: Result<Json, Error>)
      modifies this
      ensures (r, currentToken) == SolveRun(first, outcomes, None, old(currentToken))
    {
      var rresp := first;
      var uvToken: Option<Json> := None;
      var rest := outcomes;
      while rresp != JNull
        invariant SolveRun(rresp, rest, uvToken, currentToken) == SolveRun(first, outcomes, None, old(currentToken))
        decreases |rest|
      {
        var started := StartChallenge(rresp);
        if started.Failure? {
          return Failure(started.error);
        }
        if rest == [] {
          return Failure(TransportError);
        }
        if rest[0].Failure? {
          return Failure(rest[0].error);
        }
        uvToken := Some(rest[0].value.0);
        rresp := rest[0].value.1;
        rest := rest[1..];
      }
      if uvToken.None? {
        return Failure(UnboundToken);
      }
      return Success(uvToken.value);
    }
  }
}

/**
 * The protocol client: a `ReCaptcha` session that fetches the anchor page,
 * the first challenge description (rresp) and the verdicts, and the two
 * solvers it hands out, `DynamicSolver` and `MultiCaptchaSolver`.  The server
 * is the `Transport` oracle; the JSON decoder and the anchor page's token
 * extraction are functions the session is given.
 */
module Recaptcha {
  import opened Wrappers
  import opened Json
  import opened Errors
  import opened PyStr
  import opened Bytes
  import opened Protobuf
  import opened Base64
  import opened Envelope
  import opened SiteUrl
  import opened Types
  import opened GoalSearch
  import opened Http
  import opened Params
  import opened JsonText
  import opened Sorting

  /** `DYNAMIC_SELECT_DELAY`: seconds between a tile's replacement request and its display. */
  const DynamicSelectDelay: real := 4.5

  /** `get_timeout`: the rest of the delay since `sentAt`, never negative. */
  function Cooldown(sentAt: real, now: real): real {
    var d := DynamicSelectDelay - (now - sentAt);
    if d > 0.0 then d else 0.0
  }

  /** The delay is between 0 and 4.5 seconds and ends 4.5 seconds after the request. */
  lemma CooldownBounds(sentAt: real, now: real)
    ensures sentAt <= now ==> 0.0 <= Cooldown(sentAt, now) <= DynamicSelectDelay
    ensures now - sentAt >= DynamicSelectDelay ==> Cooldown(sentAt, now) == 0.0
    ensures Cooldown(sentAt, now) > 0.0 ==> Cooldown(sentAt, now) + (now - sentAt) == DynamicSelectDelay
  {
  }

  /** `max(get_timeout(i) for i in ...)` over a non-empty list of request times. */
  function MaxCooldown(last: seq<real>, now: real): (r: real)
    requires last != []
    ensures forall i :: 0 <= i < |last| ==> Cooldown(last[i], now) <= r
    ensures exists i :: 0 <= i < |last| && r == Cooldown(last[i], now)
  {
    if |last| == 1 then Cooldown(last[0], now)
    else
      var rest := MaxCooldown(last[1..], now);
      assert forall i :: 1 <= i < |last| ==> last[i] == last[1..][i - 1];
      if Cooldown(last[0], now) >= rest then Cooldown(last[0], now) else rest
  }

  /** `list(range(n))`. */
  function Range(n: nat): (r: seq<int>)
    ensures |r| == n
    ensures forall i :: 0 <= i < n ==> r[i] == i
  {
    seq(n, i requires 0 <= i < n => i)
  }

  predicate Distinct(s: seq<int>) {
    forall i, j :: 0 <= i < j < |s| ==> s[i] != s[j]
  }

  /** `GridDimensions(rows=meta[3], columns=meta[4])`, for integer entries. */
  function Dimensions(meta: Json): (r: Result<GridDimensions, Error>)
    ensures r.Success? <==> Item(meta, 3).Some? && AsInt(Item(meta, 3).value).Some?
                            && Item(meta, 4).Some? && AsInt(Item(meta, 4).value).Some?
    ensures r.Success? ==> r.value == GridDimensions(AsInt(Item(meta, 3).value).value, AsInt(Item(meta, 4).value).value)
    ensures r.Failure? ==> r.error == ShapeError
  {
    match (Item(meta, 3), Item(meta, 4))
    case (Some(a), Some(b)) =>
      (match (AsInt(a), AsInt(b))
       case (Some(rows), Some(columns)) => Success(GridDimensions(rows, columns))
       case _ => Failure(ShapeError))
    case _ => Failure(ShapeError)
  }

  /** The four entries `_get_solver` reads: type `[5]`, pmeta `[4]`, token `[1]` and p `[9]`. */
  function SolverFields(rresp: Json): (r: Option<(Json, Json, Json, Json)>)
    ensures r.Some? <==> Item(rresp, 5).Some? && Item(rresp, 4).Some? && Item(rresp, 1).Some? && Item(rresp, 9).Some?
    ensures r.Some? ==> r.value == (Item(rresp, 5).value, Item(rresp, 4).value, Item(rresp, 1).value, Item(rresp, 9).value)
  {
    match (Item(rresp, 5), Item(rresp, 4), Item(rresp, 1), Item(rresp, 9))
    case (Some(t), Some(pmeta), Some(token), Some(p)) => Some((t, pmeta, token, p))
    case _ => None
  }

  datatype Kind = DynamicKind | MultiKind

  /** The dispatch of `_get_solver` on the challenge type. */
  function SolverKind(t: Json): (r: Result<Kind, Error>)
    ensures r == Success(DynamicKind) <==> t == JStr("dynamic")
    ensures r == Success(MultiKind) <==> t == JStr("multicaptcha")
    ensures r == Failure(ShapeError) <==> !Hashable(t)
    ensures r.Failure? && r.error.ChallengeBlockedError? <==> t == JStr("default") || t == JStr("doscaptcha")
    ensures r.Failure? && r.error.ChallengeBlockedError? ==> t == JStr(r.error.blockedType)
    ensures r.Failure? ==> r.error.ShapeError? || r.error.ChallengeBlockedError? || r.error == UnknownChallengeError(t)
  {
    if !Hashable(t) then Failure(ShapeError)
    else if t == JStr("dynamic") then Success(DynamicKind)
    else if t == JStr("multicaptcha") then Success(MultiKind)
    else if t == JStr("default") || t == JStr("doscaptcha") then Failure(ChallengeBlockedError(t.s))
    else Failure(UnknownChallengeError(t))
  }

  /** What a dynamic solver is built from: `get_meta(pmeta, 1)` and its grid. */
  function DynamicSetup(pmeta: Json): (r: Result<(Json, GridDimensions), Error>)
    ensures r.Success? ==> Meta(pmeta, 1) == Success(r.value.0) && Dimensions(r.value.0) == Success(r.value.1)
    ensures r.Failure? ==> Meta(pmeta, 1).Failure? || Dimensions(Meta(pmeta, 1).value).Failure?
  {
    match Meta(pmeta, 1)
    case Failure(e) => Failure(e)
    case Success(meta) =>
      match Dimensions(meta)
      case Failure(e) => Failure(e)
      case Success(dims) => Success((meta, dims))
  }

  /** `list(get_meta(pmeta, 5)[0])`: the metas of the successive multicaptcha challenges. */
  function MultiMetas(pmeta: Json): (r: Result<seq<Json>, Error>)
    ensures Meta(pmeta, 5).Failure? ==> r == Failure(Meta(pmeta, 5).error)
    ensures Meta(pmeta, 5).Success? ==> r.Success? == ToList(Meta(pmeta, 5).value.items[0]).Some?
    ensures r.Success? ==> Meta(pmeta, 5).Success? && Some(r.value) == ToList(Meta(pmeta, 5).value.items[0])
  {
    match Meta(pmeta, 5)
    case Failure(e) => Failure(e)
    case Success(meta) =>
      match ToList(meta.items[0])
      case None => Failure(ShapeError)
      case Some(metas) => Success(metas)
  }

  /** The decoded JSON of the next reply (`load_rc_json(r.text)`), if there is a reply. */
  function JsonAnswer(replies: seq<Reply>, loads: string -> Option<Json>): (r: Result<Json, Error>)
    ensures replies == [] ==> r == Failure(TransportError)
    ensures replies != [] ==> r == LoadRcJson(replies[0].text, loads)
  {
    if replies == [] then Failure(TransportError) else LoadRcJson(replies[0].text, loads)
  }

  /** `uvresp_token, rresp` of `_verify`, from the decoded reply. */
  function VerifyFields(uvresp: Json): (r: Result<(Json, Option<Json>), Error>)
    ensures r.Success? <==> uvresp.JArr? && Item(uvresp, 1).Some?
    ensures r.Success? ==> Rresp(uvresp) == Success(r.value.1) && Item(uvresp, 1) == Some(r.value.0)
    ensures r.Failure? ==> r.error == ShapeError
  {
    match Rresp(uvresp)
    case Failure(e) => Failure(e)
    case Success(rresp) =>
      match Item(uvresp, 1)
      case None => Failure(ShapeError)
      case Some(token) => Success((token, rresp))
  }

  /** The verify reply's token and rresp, if the reply decodes. */
  function VerifyAnswer(replies: seq<Reply>, loads: string -> Option<Json>): (r: Result<(Json, Option<Json>), Error>)
    ensures r.Success? ==> JsonAnswer(replies, loads).Success? && VerifyFields(JsonAnswer(replies, loads).value) == r
    ensures JsonAnswer(replies, loads).Failure? ==> r == Failure(JsonAnswer(replies, loads).error)
  {
    match JsonAnswer(replies, loads)
    case Failure(e) => Failure(e)
    case Success(uvresp) => VerifyFields(uvresp)
  }

  /** The replacement request's form: `"[{}]".format(real_index)` is the one-element list. */
  function TileForm(realIndex: int): map<string, Json> {
    map["v" := JNull, "c" := JNull, "ds" := JStr("[" + IntToDecimal(realIndex) + "]")]
  }

  /** `data[1]`, `data[5]` and `data[2][0]` of a dynamic tile replacement reply. */
  function TileFields(data: Json): (r: Option<(Json, Json, Json)>)
    ensures r.Some? <==> Item(data, 1).Some? && Item(data, 5).Some? && Item(data, 2).Some?
                         && Item(Item(data, 2).value, 0).Some?
    ensures r.Some? ==> r.value == (Item(data, 1).value, Item(data, 5).value, Item(Item(data, 2).value, 0).value)
  {
    match (Item(data, 1), Item(data, 5), Item(data, 2))
    case (Some(token), Some(p), Some(ids)) =>
      (match Item(ids, 0)
       case Some(id) => Some((token, p, id))
       case None => None)
    case _ => None
  }

  /** The multicaptcha replacement request's form: the latest group, as a one-element list. */
  function GroupForm(token: Json, selections: seq<int>): map<string, Json> {
    map["v" := JNull, "c" := token, "ds" := JStr(OneGroupText(selections))]
  }

  /** `(data[2] or [None])[0]`: the next payload id of a multicaptcha. */
  function NextId(ids: Json): (r: Option<Json>)
    ensures !Truthy(ids) ==> r == Some(JNull)
    ensures Truthy(ids) ==> r == Item(ids, 0)
  {
    if Truthy(ids) then Item(ids, 0) else Some(JNull)
  }

  /** `data[1]`, `data[5]` and the next id of a multicaptcha image replacement reply. */
  function ImagesFields(data: Json): (r: Option<(Json, Json, Json)>)
    ensures r.Some? <==> Item(data, 1).Some? && Item(data, 5).Some? && Item(data, 2).Some?
                         && NextId(Item(data, 2).value).Some?
    ensures r.Some? ==> r.value == (Item(data, 1).value, Item(data, 5).value, NextId(Item(data, 2).value).value)
  {
    match (Item(data, 1), Item(data, 5), Item(data, 2))
    case (Some(token), Some(p), Some(ids)) =>
      (match NextId(ids)
       case Some(id) => Some((token, p, id))
       case None => None)
    case _ => None
  }

  /** A solver handed out by the session. */
  datatype Solver = DynamicChallenge(dynamic: DynamicSolver) | MultiChallenge(multi: MultiCaptchaSolver)

  /** `send_solution`'s result: the next solver, or the final token. */
  datatype Verdict = NextSolver(solver: Solver) | Token(token: Json)

  /** `select_indices`' result: the next challenge, or the finished solution. */
  datatype Step = NextChallenge(challenge: ImageGridChallenge) | Solved(solution: Solution)

  /**
   * `ReCaptcha(api_key, site_url, user_agent)`: the site URL is normalized
   * first, and a URL it rejects is an error; `rc_version` and `js_strings`
   * are what the session would download.
   */
  method NewReCaptcha(apiKey: string, site: ParsedUrl, userAgent: string, rcVersion: string,
                      jsStrings: seq<string>, transport: Transport,
                      loads: string -> Option<Json>, findToken: string -> Option<string>)
    returns (r: Result<ReCaptcha, Error>)
    ensures r.Failure? <==> RcSiteUrl(site).Failure?
    ensures r.Failure? ==> r.error == RcSiteUrl(site).error
    ensures r.Success? ==>
      fresh(r.value) && r.value.siteUrl == RcSiteUrl(site).value
      && r.value.co == RcBase64Str(r.value.siteUrl)
      && r.value.apiKey == apiKey && r.value.transport == transport
      && r.value.solverIndex == -1 && r.value.currentToken == JNull && r.value.currentP == JNull
  {
    var url := RcSiteUrl(site);
    if url.Failure? {
      return Failure(url.error);
    }
    var rc := new ReCaptcha(apiKey, url.value, userAgent, rcVersion, jsStrings, transport, loads, findToken);
    return Success(rc);
  }

  class ReCaptcha {
    const apiKey: string
    const siteUrl: string
    /** `co`: the site URL in the protocol's base64. */
    const co: string
    const userAgent: string
    const rcVersion: string
    const jsStrings: seq<string>
    const transport: Transport
    const loads: string -> Option<Json>
    /** The anchor page's `recaptcha-token` value, as the HTML parser finds it. */
    const findToken: string -> Option<string>
    var currentToken: Json
    var currentP: Json
    var solverIndex: int

    constructor(apiKey: string, siteUrl: string, userAgent: string, rcVersion: string,
                jsStrings: seq<string>, transport: Transport,
                loads: string -> Option<Json>, findToken: string -> Option<string>)
      ensures this.apiKey == apiKey && this.siteUrl == siteUrl && this.userAgent == userAgent
      ensures this.rcVersion == rcVersion && this.jsStrings == jsStrings && this.transport == transport
      ensures this.loads == loads && this.findToken == findToken
      ensures co == RcBase64Str(siteUrl)
      ensures currentToken == JNull && currentP == JNull && solverIndex == -1
    {
      this.apiKey := apiKey;
      this.siteUrl := siteUrl;
      this.co := RcBase64Str(siteUrl);
      this.userAgent := userAgent;
      this.rcVersion := rcVersion;
      this.jsStrings := jsStrings;
      this.transport := transport;
      this.loads := loads;
      this.findToken := findToken;
      currentToken := JNull;
      currentP := JNull;
      solverIndex := -1;
    }

    /** The request `get(url, params=..., headers=...)` sends while the session's p is `p`. */
    function AsGet(url: string, params: Option<map<string, Json>>, headers: Option<map<string, string>>, p: Json): Request {
      Request(HttpGet, url, params, None, headers, p)
    }

    /** The request `post(url, params=..., data=..., headers=...)` sends while the token is `token`. */
    function AsPost(url: string, params: Option<map<string, Json>>, data: Option<Body>,
                    headers: Option<map<string, string>>, token: Json): Request {
      Request(HttpPost, url, params, data, headers, token)
    }

    /** What goes on the wire for `req`: its query, its body and its headers. */
    function Wire(req: Request): (map<string, Json>, Body, map<string, string>) {
      (Query(req, apiKey, rcVersion), Content(req, rcVersion), Headers(req, userAgent))
    }

    /** `get`: sends the call, to be filled with the current p. */
    method Get(url: string, params: Option<map<string, Json>>, headers: Option<map<string, string>>)
      returns (r: Result<Reply, Error>)
      modifies transport
      ensures transport.sent == old(transport.sent) + [AsGet(url, params, headers, currentP)]
      ensures r == Answer(old(transport.replies)) && transport.replies == Popped(old(transport.replies))
    {
      var reply := transport.Exchange(Request(HttpGet, url, params, None, headers, currentP));
      r := if reply.None? then Failure(TransportError) else Success(reply.value);
    }

    /** `post`: sends the call, to be filled with the current token. */
    method Post(url: string, params: Option<map<string, Json>>, data: Option<Body>, headers: Option<map<string, string>>)
      returns (r: Result<Reply, Error>)
      modifies transport
      ensures transport.sent == old(transport.sent) + [AsPost(url, params, data, headers, currentToken)]
      ensures r == Answer(old(transport.replies)) && transport.replies == Popped(old(transport.replies))
    {
      var reply := transport.Exchange(Request(HttpPost, url, params, data, headers, currentToken));
      r := if reply.None? then Failure(TransportError) else Success(reply.value);
    }

    /** `load_rc_json(post(url, data=data, headers=headers).text)`. */
    method PostJson(url: string, data: Body, headers: Option<map<string, string>>) returns (r: Result<Json, Error>)
      modifies transport
      ensures transport.sent == old(transport.sent) + [AsPost(url, None, Some(data), headers, currentToken)]
      ensures transport.replies == Popped(old(transport.replies))
      ensures r == JsonAnswer(old(transport.replies), loads)
    {
      var reply := Post(url, None, Some(data), headers);
      if reply.Failure? {
        return Failure(reply.error);
      }
      r := LoadRcJson(reply.value.text, loads);
    }

    /** `get_image(get("payload", params=params).content)`. */
    method Payload(params: map<string, Json>) returns (r: Result<Image, Error>)
      modifies transport
      ensures transport.sent == old(transport.sent) + [AsGet("payload", Some(params), None, currentP)]
      ensures transport.replies == Popped(old(transport.replies))
      ensures r == ImageAnswer(old(transport.replies))
    {
      var reply := Get("payload", Some(params), None);
      if reply.Failure? {
        return Failure(reply.error);
      }
      r := ImageOf(reply.value);
    }

    /**
     * The second half of `_replace_tile`: takes the new token, `p` and the
     * replacement id from the decoded reply, then fetches that tile.
     */
    method FollowTile(data: Json) returns (r: Result<Image, Error>)
      modifies this, transport
      ensures solverIndex == old(solverIndex)
      ensures TileFields(data).None? ==>
        r == Failure(ShapeError) && unchanged(transport)
      ensures TileFields(data).Some? ==>
        currentToken == TileFields(data).value.0 && currentP == TileFields(data).value.1
        && transport.sent == old(transport.sent)
             + [AsGet("payload", Some(map["p" := JNull, "k" := JNull, "id" := TileFields(data).value.2]), None, currentP)]
        && transport.replies == Popped(old(transport.replies))
        && r == ImageAnswer(old(transport.replies))
    {
      var token := Item(data, 1);
      if token.None? {
        return Failure(ShapeError);
      }
      currentToken := token.value;
      var p := Item(data, 5);
      if p.None? {
        return Failure(ShapeError);
      }
      currentP := p.value;
      var ids := Item(data, 2);
      if ids.None? {
        return Failure(ShapeError);
      }
      var id := Item(ids.value, 0);
      if id.None? {
        return Failure(ShapeError);
      }
      r := Payload(map["p" := JNull, "k" := JNull, "id" := id.value]);
    }

    /**
     * The second half of `_replace_image`: takes the new token, `p` and next
     * id from the decoded reply, then fetches the image under the previous
     * `p` and id `prevId`; `nextId` is the id the solver keeps.
     */
    method FollowImage(data: Json, prevId: Json) returns (r: Result<Image, Error>, nextId: Option<Json>)
      modifies this, transport
      ensures solverIndex == old(solverIndex)
      ensures ImagesFields(data).None? ==>
        r == Failure(ShapeError) && nextId.None? && unchanged(transport)
      ensures ImagesFields(data).Some? ==>
        currentToken == ImagesFields(data).value.0 && currentP == ImagesFields(data).value.1
        && nextId == Some(ImagesFields(data).value.2)
        && transport.sent == old(transport.sent)
             + [AsGet("payload", Some(map["p" := old(currentP), "k" := JNull, "id" := prevId]), None, currentP)]
        && transport.replies == Popped(old(transport.replies))
        && r == ImageAnswer(old(transport.replies))
    {
      nextId := None;
      var token := Item(data, 1);
      if token.None? {
        return Failure(ShapeError), None;
      }
      currentToken := token.value;
      var prevP := currentP;
      var p := Item(data, 5);
      if p.None? {
        return Failure(ShapeError), None;
      }
      currentP := p.value;
      var ids := Item(data, 2);
      if ids.None? {
        return Failure(ShapeError), None;
      }
      nextId := NextId(ids.value);
      if nextId.None? {
        return Failure(ShapeError), None;
      }
      r := Payload(map["p" := prevP, "k" := JNull, "id" := prevId]);
    }

    /** The anchor page request's parameters, before filling. */
    function AnchorParams(): map<string, Json> {
      map["ar" := JStr("1"), "k" := JNull, "co" := JStr(co), "hl" := JStr("en"),
          "v" := JNull, "size" := JStr("normal"), "sa" := JStr("action")]
    }

    /**
     * The first-rresp request: the frame for `token` as a protobuf body,
     * posted while the session's token is `current` (a raw body takes no fill).
     */
    function ReloadRequest(token: string, current: Json): Request {
      AsPost("reload", None, Some(Raw(FieldsBytes(ReloadFrame(rcVersion, token, "fi", apiKey)))),
             Some(map["Content-Type" := "application/x-protobuffer"]), current)
    }

    /** The verify request's form: the base64 of the solution's JSON. */
    function VerifyForm(solution: Solution): map<string, Json> {
      map["v" := JNull, "c" := JNull, "response" := JStr(RcBase64Str(ResponseText(solution)))]
    }

    /** The anchor page was answered and holds a non-empty token. */
    predicate AnchorAnswered(replies: seq<Reply>) {
      replies != [] && findToken(replies[0].text).Some? && findToken(replies[0].text).value != []
    }

    /** `_request_first_token`: the anchor page's token becomes the current token. */
    method RequestFirstToken() returns (r: Result<string, Error>)
      modifies this, transport
      ensures transport.sent == old(transport.sent) + [AsGet("anchor", Some(AnchorParams()), None, old(currentP))]
      ensures transport.replies == Popped(old(transport.replies))
      ensures r.Success? <==> old(transport.replies) != []
                              && findToken(old(transport.replies)[0].text).Some?
                              && findToken(old(transport.replies)[0].text).value != []
      ensures r.Success? ==> r.value == findToken(old(transport.replies)[0].text).value && currentToken == JStr(r.value)
      ensures r.Failure? ==> currentToken == old(currentToken)
      ensures r.Failure? ==> r.error == (if old(transport.replies) == [] then TransportError else NoFirstToken)
      ensures currentP == old(currentP) && solverIndex == old(solverIndex)
    {
      var reply := Get("anchor", Some(AnchorParams()), None);
      if reply.Failure? {
        return Failure(reply.error);
      }
      var token := findToken(reply.value.text);
      if token.None? || token.value == [] {
        return Failure(NoFirstToken);
      }
      currentToken := JStr(token.value);
      return Success(token.value);
    }

    /** `_get_first_rresp`: posts the reload frame and decodes the reply. */
    method GetFirstRresp(token: string) returns (r: Result<Json, Error>)
      modifies transport
      ensures transport.sent == old(transport.sent) + [ReloadRequest(token, currentToken)]
      ensures transport.replies == Popped(old(transport.replies))
      ensures r == JsonAnswer(old(transport.replies), loads)
    {
      var body := FormatReloadProtobuf(rcVersion, token, "fi", apiKey);
      r := PostJson("reload", Raw(body), Some(map["Content-Type" := "application/x-protobuffer"]));
    }

    /** `get_challenge_goal`: the goal text for the id `meta[0]`. */
    method GetChallengeGoal(meta: Json) returns (r: Result<ChallengeGoal, Error>)
      ensures Item(meta, 0).None? ==> r == Failure(ShapeError)
      ensures Item(meta, 0).Some? ==> r == Success(ChallengeGoal(GoalText(jsStrings, Item(meta, 0).value, SelectAllWord), meta))
      ensures r.Success? && r.value.raw.Some? ==> SelectAllWord(r.value.raw.value)
    {
      var id := Item(meta, 0);
      if id.None? {
        return Failure(ShapeError);
      }
      var raw := FindChallengeGoalText(jsStrings, id.value);
      return Success(ChallengeGoal(raw, meta));
    }

    /**
     * `_get_solver`: counts the solver, installs the reply's token and p, and
     * builds the solver its challenge type calls for.
     */
    method GetSolver(rresp: Json) returns (r: Result<Solver, Error>)
      modifies this
      ensures solverIndex == old(solverIndex) + 1
      ensures SolverFields(rresp).None? ==> r == Failure(ShapeError)
      ensures SolverFields(rresp).Some? ==> currentToken == SolverFields(rresp).value.2 && currentP == SolverFields(rresp).value.3
      ensures SolverFields(rresp).Some? && SolverKind(SolverFields(rresp).value.0).Failure?
              ==> r == Failure(SolverKind(SolverFields(rresp).value.0).error)
      ensures r.Success? ==> SolverFields(rresp).Some? && SolverKind(SolverFields(rresp).value.0).Success?
      ensures r.Success? && r.value.DynamicChallenge? ==>
        SolverKind(SolverFields(rresp).value.0) == Success(DynamicKind)
        && DynamicSetup(SolverFields(rresp).value.1).Success?
        && fresh(r.value.dynamic) && r.value.dynamic.rc == this
        && r.value.dynamic.meta == DynamicSetup(SolverFields(rresp).value.1).value.0
        && r.value.dynamic.dimensions == DynamicSetup(SolverFields(rresp).value.1).value.1
        && DynamicReady(r.value.dynamic)
      ensures r.Success? && r.value.MultiChallenge? ==>
        SolverKind(SolverFields(rresp).value.0) == Success(MultiKind)
        && MultiMetas(SolverFields(rresp).value.1).Success?
        && fresh(r.value.multi) && r.value.multi.rc == this
        && r.value.multi.metas == MultiMetas(SolverFields(rresp).value.1).value
        && MultiReady(r.value.multi)
      ensures SolverFields(rresp).Some? && SolverKind(SolverFields(rresp).value.0) == Success(DynamicKind)
              ==> (r.Success? <==> DynamicSetup(SolverFields(rresp).value.1).Success?)
      ensures SolverFields(rresp).Some? && SolverKind(SolverFields(rresp).value.0) == Success(MultiKind)
              ==> (r.Success? <==> MultiMetas(SolverFields(rresp).value.1).Success?)
      ensures SolverFor(rresp, r, this)
    {
      solverIndex := solverIndex + 1;
      var challengeType := Item(rresp, 5);
      if challengeType.None? {
        return Failure(ShapeError);
      }
      var pmeta := Item(rresp, 4);
      if pmeta.None? {
        return Failure(ShapeError);
      }
      var token := Item(rresp, 1);
      if token.None? {
        return Failure(ShapeError);
      }
      currentToken := token.value;
      var p := Item(rresp, 9);
      if p.None? {
        return Failure(ShapeError);
      }
      currentP := p.value;
      var kind := SolverKind(challengeType.value);
      if kind.Failure? {
        return Failure(kind.error);
      }
      if kind.value == DynamicKind {
        var meta := GetMeta(pmeta.value, 1);
        if meta.Failure? {
          return Failure(meta.error);
        }
        var dims := Dimensions(meta.value);
        if dims.Failure? {
          return Failure(dims.error);
        }
        var solver := new DynamicSolver(this, meta.value, dims.value);
        return Success(DynamicChallenge(solver));
      } else {
        var meta := GetMeta(pmeta.value, 5);
        if meta.Failure? {
          return Failure(meta.error);
        }
        var metas := ToList(meta.value.items[0]);
        if metas.None? {
          return Failure(ShapeError);
        }
        var solver := new MultiCaptchaSolver(this, metas.value);
        return Success(MultiChallenge(solver));
      }
    }

    /**
     * `first_solver`: once only; the anchor page's token, the first rresp
     * for it, and the solver that rresp calls for.
     */
    method FirstSolver() returns (r: Result<Solver, Error>)
      modifies this, transport
      ensures old(solverIndex) >= 0 ==> r == Failure(StateError) && unchanged(this) && unchanged(transport)
      ensures old(solverIndex) < 0 ==> |transport.sent| >= |old(transport.sent)| + 1
                                       && transport.sent[..|old(transport.sent)|] == old(transport.sent)
                                       && transport.sent[|old(transport.sent)|] == AsGet("anchor", Some(AnchorParams()), None, old(currentP))
      ensures r.Success? ==>
        old(solverIndex) < 0 && solverIndex == old(solverIndex) + 1 && |old(transport.replies)| >= 2
        && findToken(old(transport.replies)[0].text).Some?
        && |transport.sent| == |old(transport.sent)| + 2
        && transport.sent[|old(transport.sent)| + 1] == ReloadRequest(findToken(old(transport.replies)[0].text).value, JStr(findToken(old(transport.replies)[0].text).value))
        && transport.replies == old(transport.replies)[2..]
        && LoadRcJson(old(transport.replies)[1].text, loads).Success?
        && SolverFields(LoadRcJson(old(transport.replies)[1].text, loads).value).Some?
        && currentToken == SolverFields(LoadRcJson(old(transport.replies)[1].text, loads).value).value.2
      ensures r.Success? && r.value.DynamicChallenge? ==> fresh(r.value.dynamic) && r.value.dynamic.rc == this && DynamicReady(r.value.dynamic)
      ensures r.Success? && r.value.MultiChallenge? ==> fresh(r.value.multi) && r.value.multi.rc == this && MultiReady(r.value.multi)
      ensures old(solverIndex) < 0 && !AnchorAnswered(old(transport.replies))
              ==> r == Failure(if old(transport.replies) == [] then TransportError else NoFirstToken)
      ensures old(solverIndex) < 0 && AnchorAnswered(old(transport.replies))
              && JsonAnswer(old(transport.replies)[1..], loads).Failure?
              ==> r == Failure(JsonAnswer(old(transport.replies)[1..], loads).error)
      ensures old(solverIndex) < 0 && AnchorAnswered(old(transport.replies))
              && JsonAnswer(old(transport.replies)[1..], loads).Success?
              ==> var rresp := JsonAnswer(old(transport.replies)[1..], loads).value;
                  SolverFor(rresp, r, this) && solverIndex == old(solverIndex) + 1
                  && (SolverFields(rresp).Some? ==> currentToken == SolverFields(rresp).value.2
                                                     && currentP == SolverFields(rresp).value.3)
    {
      if solverIndex >= 0 {
        return Failure(StateError);
      }
      var token := RequestFirstToken();
      if token.Failure? {
        return Failure(token.error);
      }
      var rresp := GetFirstRresp(token.value);
      if rresp.Failure? {
        return Failure(rresp.error);
      }
      r := GetSolver(rresp.value);
    }

    /**
     * `send_solution`: posts the solution and reads the verdict; a new rresp
     * takes precedence over the token, and a falsy token without one is an
     * error.
     */
    method SendSolution(solution: Solution) returns (r: Result<Verdict, Error>)
      modifies this, transport
      ensures old(solverIndex) < 0 ==> r == Failure(StateError) && unchanged(this) && unchanged(transport)
      ensures old(solverIndex) >= 0 ==>
        |transport.sent| == |old(transport.sent)| + 1
        && transport.sent[|old(transport.sent)|] == AsPost("userverify", None, Some(Form(VerifyForm(solution))), None, old(currentToken))
        && (VerifyAnswer(old(transport.replies), loads).Failure? ==> r == Failure(VerifyAnswer(old(transport.replies), loads).error))
      ensures r.Success? ==> old(solverIndex) >= 0 && VerifyAnswer(old(transport.replies), loads).Success?
      ensures r.Success? && r.value.Token? ==>
        VerifyAnswer(old(transport.replies), loads) == Success((r.value.token, None))
        && Truthy(r.value.token) && currentToken == old(currentToken) && solverIndex == old(solverIndex)
      ensures old(solverIndex) >= 0 && VerifyAnswer(old(transport.replies), loads).Success?
              && VerifyAnswer(old(transport.replies), loads).value.1.None?
              && !Truthy(VerifyAnswer(old(transport.replies), loads).value.0)
              ==> r == Failure(NeitherTokenNorRresp)
      ensures r.Success? && r.value.NextSolver? ==>
        VerifyAnswer(old(transport.replies), loads).value.1.Some?
        && solverIndex == old(solverIndex) + 1
      ensures old(solverIndex) >= 0 && VerifyAnswer(old(transport.replies), loads).Success?
              && VerifyAnswer(old(transport.replies), loads).value.1.None?
              && Truthy(VerifyAnswer(old(transport.replies), loads).value.0)
              ==> r == Success(Token(VerifyAnswer(old(transport.replies), loads).value.0))
      ensures old(solverIndex) >= 0 && VerifyAnswer(old(transport.replies), loads).Success?
              && VerifyAnswer(old(transport.replies), loads).value.1.Some?
              ==> var rresp := VerifyAnswer(old(transport.replies), loads).value.1.value;
                  solverIndex == old(solverIndex) + 1
                  && (SolverFields(rresp).Some? ==> currentToken == SolverFields(rresp).value.2
                                                     && currentP == SolverFields(rresp).value.3)
                  && (r.Failure? ==> SolverFor(rresp, Failure(r.error), this))
                  && (r.Success? ==> r.value.NextSolver? && SolverFor(rresp, Success(r.value.solver), this))
      ensures r.Success? && r.value.NextSolver? && r.value.solver.DynamicChallenge? ==> fresh(r.value.solver.dynamic)
      ensures r.Success? && r.value.NextSolver? && r.value.solver.MultiChallenge? ==> fresh(r.value.solver.multi)
    {
      if solverIndex < 0 {
        return Failure(StateError);
      }
      var verdict := Verify(solution);
      if verdict.Failure? {
        return Failure(verdict.error);
      }
      var (uvToken, rresp) := verdict.value;
      if rresp.Some? {
        var solver := GetSolver(rresp.value);
        if solver.Failure? {
          return Failure(solver.error);
        }
        return Success(NextSolver(solver.value));
      }
      if !Truthy(uvToken) {
        return Failure(NeitherTokenNorRresp);
      }
      return Success(Token(uvToken));
    }

    /** `_verify`: posts the solution; the reply's token and its rresp, if any. */
    method Verify(solution: Solution) returns (r: Result<(Json, Option<Json>), Error>)
      modifies transport
      ensures transport.sent == old(transport.sent) + [AsPost("userverify", None, Some(Form(VerifyForm(solution))), None, currentToken)]
      ensures r == VerifyAnswer(old(transport.replies), loads)
    {
      var uvresp := PostJson("userverify", Form(VerifyForm(solution)), None);
      if uvresp.Failure? {
        return Failure(uvresp.error);
      }
      var rresp := GetRresp(uvresp.value);
      if rresp.Failure? {
        return Failure(rresp.error);
      }
      var uvToken := Item(uvresp.value, 1);
      if uvToken.None? {
        return Failure(ShapeError);
      }
      return Success((uvToken.value, rresp.value));
    }
  }

  /** A dynamic solver as `__init__` leaves it. */
  predicate DynamicReady(s: DynamicSolver)
    reads s
  {
    s.Valid() && s.IdsDistinct() && !s.retrieved && s.selections == []
    && s.tileIndexMap == Range(s.Tiles()) && s.latestIndex == s.dimensions.Count() - 1
  }

  /**
   * What `_get_solver` makes of `rresp` for the session `rc`: the failure its
   * missing fields, its type or its metadata call for, or the solver of its
   * type seeded from its metadata and ready to start.
   */
  ghost predicate SolverFor(rresp: Json, r: Result<Solver, Error>, rc: ReCaptcha)
    reads if r.Success? && r.value.DynamicChallenge? then {r.value.dynamic} else {}
    reads if r.Success? && r.value.MultiChallenge? then {r.value.multi} else {}
  {
    match SolverFields(rresp)
    case None => r == Failure(ShapeError)
    case Some((t, pmeta, _, _)) =>
      match SolverKind(t)
      case Failure(e) => r == Failure(e)
      case Success(DynamicKind) =>
        (match DynamicSetup(pmeta)
         case Failure(e) => r == Failure(e)
         case Success((meta, dims)) =>
           r.Success? && r.value.DynamicChallenge? && r.value.dynamic.rc == rc
           && r.value.dynamic.meta == meta && r.value.dynamic.dimensions == dims
           && DynamicReady(r.value.dynamic))
      case Success(MultiKind) =>
        (match MultiMetas(pmeta)
         case Failure(e) => r == Failure(e)
         case Success(metas) =>
           r.Success? && r.value.MultiChallenge? && r.value.multi.rc == rc
           && r.value.multi.metas == metas && MultiReady(r.value.multi))
  }

  /** A multicaptcha solver as `__init__` leaves it. */
  ghost predicate MultiReady(s: MultiCaptchaSolver)
    reads s
  {
    s.Valid() && s.challengeIndex == -1 && s.groups == [] && s.id == JStr("2") && s.total == |s.metas|
  }

  /**
   * `DynamicSolver`: one grid whose selected tiles are replaced one at a
   * time.  Each grid position maps to the id of the image it shows; a
   * selected tile's id is recorded and the position gets a fresh id.
   */
  class DynamicSolver {
    const rc: ReCaptcha
    const meta: Json
    const dimensions: GridDimensions
    var selections: seq<int>
    var tileIndexMap: seq<int>
    var lastRequest: seq<real>
    var latestIndex: int
    var retrieved: bool

    /** `num_tiles`, as the length of `range(num_tiles)`. */
    function Tiles(): nat {
      if dimensions.Count() > 0 then dimensions.Count() else 0
    }

    /** The shape every method keeps: one id and one request time per tile. */
    predicate Valid()
      reads this
    {
      IsNonEmptyList(meta) && |tileIndexMap| == Tiles() && |lastRequest| == Tiles()
    }

    /** Every id handed out so far: the selected ones, then the shown ones. */
    function Issued(): seq<int>
      reads this
    {
      selections + tileIndexMap
    }

    /** Ids are never reused, and none exceeds the latest one. */
    predicate IdsDistinct()
      reads this
    {
      Distinct(Issued()) && Bounded(Issued(), latestIndex)
    }

    constructor(rc: ReCaptcha, meta: Json, dimensions: GridDimensions)
      requires IsNonEmptyList(meta)
      ensures this.rc == rc && this.meta == meta && this.dimensions == dimensions
      ensures lastRequest == seq(Tiles(), i => 0.0)
      ensures DynamicReady(this)
    {
      this.rc := rc;
      this.meta := meta;
      this.dimensions := dimensions;
      var n := dimensions.Count();
      var count: nat := if n > 0 then n else 0;
      selections := [];
      tileIndexMap := Range(count);
      lastRequest := seq(count, i => 0.0);
      latestIndex := n - 1;
      retrieved := false;
    }

    /** `get_challenge`: once only; the goal, the first image and the grid. */
    method GetChallenge() returns (r: Result<ImageGridChallenge, Error>)
      requires Valid()
      modifies this, rc.transport
      ensures Valid() && retrieved
      ensures selections == old(selections) && tileIndexMap == old(tileIndexMap)
      ensures lastRequest == old(lastRequest) && latestIndex == old(latestIndex)
      ensures old(retrieved) ==> r == Failure(StateError) && unchanged(rc.transport)
      ensures !old(retrieved) ==>
        rc.transport.sent == old(rc.transport.sent) + [rc.AsGet("payload", Some(map["p" := JNull, "k" := JNull]), None, rc.currentP)]
        && (r.Success? <==> ImageAnswer(old(rc.transport.replies)).Success?)
      ensures r.Success? ==>
        r.value == ImageGridChallenge(ChallengeGoal(GoalText(rc.jsStrings, meta.items[0], SelectAllWord), meta),
                                      ImageAnswer(old(rc.transport.replies)).value, dimensions)
    {
      if retrieved {
        return Failure(StateError);
      }
      retrieved := true;
      var goal := rc.GetChallengeGoal(meta);
      var image := rc.Payload(map["p" := JNull, "k" := JNull]);
      if image.Failure? {
        return Failure(image.error);
      }
      return Success(ImageGridChallenge(goal.value, image.value, dimensions));
    }

    /**
     * `select_tile(index)`: once the challenge is retrieved, replaces the
     * tile at `index` and returns the new image with its remaining delay.
     * `sentAt` is the clock when the replacement was answered, `now` the clock
     * when the delay is computed.
     */
    method SelectTile(index: int, sentAt: real, now: real) returns (r: Result<DynamicTile, Error>)
      requires Valid()
      modifies this, rc, rc.transport
      ensures Valid() && retrieved == old(retrieved)
      ensures !old(retrieved) ==> r == Failure(StateError) && unchanged(this) && unchanged(rc) && unchanged(rc.transport)
      ensures old(retrieved) && PyIndex(index, |old(tileIndexMap)|).None? ==>
        r == Failure(ShapeError) && unchanged(this) && unchanged(rc) && unchanged(rc.transport)
      ensures r.Success? ==>
        old(retrieved) && PyIndex(index, |old(tileIndexMap)|).Some?
        && Replaced(PyIndex(index, |old(tileIndexMap)|).value, old(selections), old(tileIndexMap), old(lastRequest), old(latestIndex), sentAt)
        && r.value.delay == Cooldown(sentAt, now)
      ensures old(retrieved) && PyIndex(index, |old(tileIndexMap)|).Some? ==>
        var i := PyIndex(index, |old(tileIndexMap)|).value;
        selections == old(selections) + [old(tileIndexMap)[i]]
        && |rc.transport.sent| >= |old(rc.transport.sent)| + 1
        && rc.transport.sent[..|old(rc.transport.sent)|] == old(rc.transport.sent)
        && rc.transport.sent[|old(rc.transport.sent)|]
           == rc.AsPost("replaceimage", None, Some(Form(TileForm(old(tileIndexMap)[i]))), None, old(rc.currentToken))
      ensures r.Success? ==>
        JsonAnswer(old(rc.transport.replies), rc.loads).Success?
        && var fields := TileFields(JsonAnswer(old(rc.transport.replies), rc.loads).value);
           fields.Some?
           && rc.currentToken == fields.value.0 && rc.currentP == fields.value.1
           && |rc.transport.sent| == |old(rc.transport.sent)| + 2
           && rc.transport.sent[|old(rc.transport.sent)| + 1]
              == rc.AsGet("payload", Some(map["p" := JNull, "k" := JNull, "id" := fields.value.2]), None, rc.currentP)
           && Success(r.value.image) == ImageAnswer(old(rc.transport.replies)[1..])
      ensures r.Success? && old(IdsDistinct()) ==> IdsDistinct()
    {
      if !retrieved {
        return Failure(StateError);
      }
      var slot := PyIndex(index, |tileIndexMap|);
      if slot.None? {
        return Failure(ShapeError);
      }
      var image := ReplaceTile(slot.value, sentAt);
      if image.Failure? {
        return Failure(image.error);
      }
      return Success(DynamicTile(image.value, Cooldown(lastRequest[slot.value], now)));
    }

    /** The state after the tile at `i` was replaced, from the state before. */
    ghost predicate Replaced(i: nat, selections0: seq<int>, map0: seq<int>, last0: seq<real>, latest0: int, sentAt: real)
      reads this
    {
      i < |map0| && i < |last0|
      && selections == selections0 + [map0[i]]
      && tileIndexMap == map0[i := latest0 + 1]
      && latestIndex == latest0 + 1
      && lastRequest == last0[i := sentAt]
    }

    /**
     * `_replace_tile` at position `i`: the id shown there joins the
     * selections, its replacement is requested, and the position gets the
     * next id; the reply's token and p become current, and its image id is
     * fetched.
     */
    method ReplaceTile(i: nat, sentAt: real) returns (r: Result<Image, Error>)
      requires Valid() && i < |tileIndexMap|
      modifies this, rc, rc.transport
      ensures Valid() && retrieved == old(retrieved)
      ensures selections == old(selections) + [old(tileIndexMap)[i]]
      ensures |rc.transport.sent| >= |old(rc.transport.sent)| + 1
      ensures rc.transport.sent[..|old(rc.transport.sent)|] == old(rc.transport.sent)
      ensures rc.transport.sent[|old(rc.transport.sent)|]
           == rc.AsPost("replaceimage", None, Some(Form(TileForm(old(tileIndexMap)[i]))), None, old(rc.currentToken))
      ensures r.Success? ==>
        Replaced(i, old(selections), old(tileIndexMap), old(lastRequest), old(latestIndex), sentAt)
        && JsonAnswer(old(rc.transport.replies), rc.loads).Success?
        && var fields := TileFields(JsonAnswer(old(rc.transport.replies), rc.loads).value);
           fields.Some?
           && rc.currentToken == fields.value.0 && rc.currentP == fields.value.1
           && |rc.transport.sent| == |old(rc.transport.sent)| + 2
           && rc.transport.sent[|old(rc.transport.sent)| + 1]
              == rc.AsGet("payload", Some(map["p" := JNull, "k" := JNull, "id" := fields.value.2]), None, rc.currentP)
           && r == ImageAnswer(old(rc.transport.replies)[1..])
      ensures r.Success? && old(IdsDistinct()) ==> IdsDistinct()
    {
      var data := SendTile(i, sentAt);
      if data.Failure? {
        return Failure(data.error);
      }
      r := rc.FollowTile(data.value);
    }

    /**
     * The first half of `_replace_tile`: records the selection, posts it,
     * stamps the tile and, once the reply decodes, gives the tile a new id.
     */
    method SendTile(i: nat, sentAt: real) returns (data: Result<Json, Error>)
      requires Valid() && i < |tileIndexMap|
      modifies this, rc.transport
      ensures Valid() && retrieved == old(retrieved)
      ensures selections == old(selections) + [old(tileIndexMap)[i]]
      ensures rc.transport.sent
           == old(rc.transport.sent) + [rc.AsPost("replaceimage", None, Some(Form(TileForm(old(tileIndexMap)[i]))), None, rc.currentToken)]
      ensures rc.transport.replies == Popped(old(rc.transport.replies))
      ensures data == JsonAnswer(old(rc.transport.replies), rc.loads)
      ensures data.Success? ==> Replaced(i, old(selections), old(tileIndexMap), old(lastRequest), old(latestIndex), sentAt)
      ensures data.Success? && old(IdsDistinct()) ==> IdsDistinct()
    {
      ghost var wasDistinct := IdsDistinct();
      var realIndex := tileIndexMap[i];
      selections := selections + [realIndex];
      var reply := rc.Post("replaceimage", None, Some(Form(TileForm(realIndex))), None);
      if reply.Failure? {
        return Failure(reply.error);
      }
      lastRequest := lastRequest[i := sentAt];
      data := LoadRcJson(reply.value.text, rc.loads);
      if data.Failure? {
        return;
      }
      latestIndex := latestIndex + 1;
      tileIndexMap := tileIndexMap[i := latestIndex];
      if wasDistinct {
        ReplaceKeepsDistinct(old(selections), old(tileIndexMap), i, latestIndex, old(latestIndex));
      }
    }

    /** `finish`: the selected ids, once the challenge was retrieved. */
    function Finish(): (r: Result<Solution, Error>)
      reads this
      ensures !retrieved ==> r == Failure(StateError)
      ensures r.Success? ==> r.value == DynamicSolution(selections)
      ensures retrieved && IdsDistinct() ==> r.Success? && Distinct(r.value.ids)
    {
      if !retrieved then Failure(StateError)
      else
        assert forall i :: 0 <= i < |selections| ==> selections[i] == Issued()[i];
        Success(DynamicSolution(selections))
    }

    /** `final_timeout`: the longest remaining delay; an empty grid has none (ValueError). */
    function FinalTimeout(now: real): (r: Result<real, Error>)
      reads this
      requires Valid()
      ensures r.Failure? <==> Tiles() == 0
      ensures r.Success? ==> forall i :: 0 <= i < Tiles() ==> Cooldown(lastRequest[i], now) <= r.value
      ensures r.Success? ==> exists i :: 0 <= i < Tiles() && r.value == Cooldown(lastRequest[i], now)
      ensures r.Failure? ==> r.error == NoTiles
    {
      if lastRequest == [] then Failure(NoTiles) else Success(MaxCooldown(lastRequest, now))
    }
  }

  /** Every entry of `s` is between 0 and `hi`. */
  predicate Bounded(s: seq<int>, hi: int) {
    forall k :: 0 <= k < |s| ==> 0 <= s[k] <= hi
  }

  /**
   * Moving the id at position `i` of `shown` to the selections and giving the
   * position an id above all earlier ones keeps all ids distinct.
   */
  lemma ReplaceKeepsDistinct(selections: seq<int>, shown: seq<int>, i: nat, newId: int, latest: int)
    requires i < |shown| && newId == latest + 1
    requires Distinct(selections + shown) && Bounded(selections + shown, latest)
    ensures Distinct((selections + [shown[i]]) + shown[i := newId])
    ensures Bounded((selections + [shown[i]]) + shown[i := newId], newId)
  {
    var before := selections + shown;
    var after := (selections + [shown[i]]) + shown[i := newId];
    var n := |selections|;
    assert |after| == |before| + 1;
    // Each position of `after` except n + 1 + i holds an id of `before`.
    forall k | 0 <= k < |after| && k != n + 1 + i
      ensures after[k] == before[Origin(k, n, i)]
    {
    }
    assert after[n + 1 + i] == newId;
    forall a, b | 0 <= a < b < |after|
      ensures after[a] != after[b]
    {
      if b == n + 1 + i {
        assert after[a] == before[Origin(a, n, i)];
      } else if a == n + 1 + i {
        assert after[b] == before[Origin(b, n, i)];
      } else {
        var oa, ob := Origin(a, n, i), Origin(b, n, i);
        assert after[a] == before[oa] && after[b] == before[ob];
        if oa < ob {
          assert before[oa] != before[ob];
        } else {
          assert ob < oa;
          assert before[ob] != before[oa];
        }
      }
    }
    forall k | 0 <= k < |after|
      ensures 0 <= after[k] <= newId
    {
      if k != n + 1 + i {
        var o := Origin(k, n, i);
        assert o < |before| && after[k] == before[o];
        assert 0 <= before[o] <= latest;
      } else {
        assert before[n + i] == shown[i] && 0 <= before[n + i] <= latest;
      }
    }
  }

  /** Where position `k` of the new id list came from in the old one. */
  function Origin(k: nat, n: nat, i: nat): nat {
    if k < n then k else if k == n then n + i else k - 1
  }

  /**
   * `MultiCaptchaSolver`: a run of grids, one per meta; each selection
   * group is sent and the next grid follows, until no meta is left.
   */
  class MultiCaptchaSolver {
    const rc: ReCaptcha
    /** The number of metas the solver started with. */
    ghost const total: nat
    var groups: seq<seq<int>>
    var id: Json
    var metas: seq<Json>
    var challengeIndex: int

    constructor(rc: ReCaptcha, metas: seq<Json>)
      ensures this.rc == rc && this.metas == metas
      ensures MultiReady(this)
    {
      this.rc := rc;
      this.metas := metas;
      total := |metas|;
      groups := [];
      id := JStr("2");
      challengeIndex := -1;
    }

    /**
     * Each grid shown took one meta; before the first grid nothing is
     * selected, afterwards one sorted group per grid answered.
     */
    ghost predicate Valid()
      reads this
    {
      challengeIndex >= -1 && |metas| + challengeIndex + 1 == total
      && (if challengeIndex < 0 then groups == [] else |groups| == challengeIndex)
      && forall k :: 0 <= k < |groups| ==> Sorted(groups[k])
    }

    /** The grid for one meta: its dimensions and its goal. */
    function ChallengeFor(meta: Json, image: Image): (r: Result<ImageGridChallenge, Error>)
      ensures r.Success? <==> Dimensions(meta).Success? && Item(meta, 0).Some?
      ensures r.Success? ==> r.value == ImageGridChallenge(
        ChallengeGoal(GoalText(rc.jsStrings, Item(meta, 0).value, SelectAllWord), meta), image, Dimensions(meta).value)
    {
      match (Dimensions(meta), Item(meta, 0))
      case (Success(dims), Some(first)) =>
        Success(ImageGridChallenge(ChallengeGoal(GoalText(rc.jsStrings, first, SelectAllWord), meta), image, dims))
      case _ => Failure(ShapeError)
    }

    /** `_get_challenge`: the next meta's grid, showing `image`. */
    method NextGrid(image: Image) returns (r: Result<ImageGridChallenge, Error>)
      modifies this
      ensures challengeIndex == old(challengeIndex) + 1
      ensures groups == old(groups) && id == old(id)
      ensures old(metas) == [] ==> r == Failure(ShapeError) && metas == []
      ensures old(metas) != [] ==> metas == old(metas)[1..] && r == ChallengeFor(old(metas)[0], image)
    {
      challengeIndex := challengeIndex + 1;
      if metas == [] {
        return Failure(ShapeError);
      }
      var meta := metas[0];
      metas := metas[1..];
      var dims := Dimensions(meta);
      if dims.Failure? {
        return Failure(dims.error);
      }
      var goal := rc.GetChallengeGoal(meta);
      if goal.Failure? {
        return Failure(goal.error);
      }
      return Success(ImageGridChallenge(goal.value, image, dims.value));
    }

    /** `first_challenge`: once only; the first image, sent with the current token. */
    method FirstChallenge() returns (r: Result<ImageGridChallenge, Error>)
      modifies this, rc.transport
      ensures old(challengeIndex) >= 0 ==> r == Failure(StateError) && unchanged(this) && unchanged(rc.transport)
      ensures old(challengeIndex) < 0 ==>
        rc.transport.sent == old(rc.transport.sent)
          + [rc.AsGet("payload", Some(map["c" := rc.currentToken, "k" := JStr(rc.apiKey)]), None, rc.currentP)]
      ensures r.Success? ==>
        old(challengeIndex) < 0 && ImageAnswer(old(rc.transport.replies)).Success?
        && old(metas) != [] && metas == old(metas)[1..] && challengeIndex == old(challengeIndex) + 1
        && r == ChallengeFor(old(metas)[0], ImageAnswer(old(rc.transport.replies)).value)
      ensures r.Success? && old(Valid()) ==> Valid() && challengeIndex == 0
    {
      if challengeIndex >= 0 {
        return Failure(StateError);
      }
      var image := rc.Payload(map["c" := rc.currentToken, "k" := JStr(rc.apiKey)]);
      if image.Failure? {
        return Failure(image.error);
      }
      r := NextGrid(image.value);
    }

    /**
     * `_replace_image`: sends the latest group, installs the reply's token,
     * p and next id, and fetches the next image with the p and id held
     * before the reply; a p that was None is filled with the new one.
     */
    method ReplaceImage() returns (r: Result<Image, Error>)
      requires groups != []
      modifies this, rc, rc.transport
      ensures groups == old(groups) && metas == old(metas) && challengeIndex == old(challengeIndex)
      ensures |rc.transport.sent| >= |old(rc.transport.sent)| + 1
      ensures rc.transport.sent[..|old(rc.transport.sent)|] == old(rc.transport.sent)
      ensures rc.transport.sent[|old(rc.transport.sent)|]
           == rc.AsPost("replaceimage", None, Some(Form(GroupForm(old(rc.currentToken), groups[|groups| - 1]))),
                        None, old(rc.currentToken))
      ensures r.Success? ==>
        JsonAnswer(old(rc.transport.replies), rc.loads).Success?
        && var fields := ImagesFields(JsonAnswer(old(rc.transport.replies), rc.loads).value);
           fields.Some?
           && rc.currentToken == fields.value.0 && rc.currentP == fields.value.1 && id == fields.value.2
           && |rc.transport.sent| == |old(rc.transport.sent)| + 2
           && rc.transport.sent[|old(rc.transport.sent)| + 1]
              == rc.AsGet("payload", Some(map["p" := old(rc.currentP), "k" := JNull, "id" := old(id)]), None, rc.currentP)
           && r == ImageAnswer(old(rc.transport.replies)[1..])
    {
      ghost var sent0, replies0 := rc.transport.sent, rc.transport.replies;
      var selections := groups[|groups| - 1];
      var data := rc.PostJson("replaceimage", Form(GroupForm(rc.currentToken, selections)), None);
      if data.Failure? {
        return Failure(data.error);
      }
      ghost var sent1 := rc.transport.sent;
      assert replies0 != [] && rc.transport.replies == replies0[1..];
      var nextId;
      r, nextId := rc.FollowImage(data.value, id);
      assert rc.transport.sent[..|sent1|] == sent1;
      if nextId.Some? {
        id := nextId.value;
      }
    }

    /**
     * `select_indices(indices)`: records the sorted group; with metas left,
     * the next grid follows, otherwise the solution holds every group.
     */
    method SelectIndices(indices: seq<int>) returns (r: Result<Step, Error>)
      modifies this, rc, rc.transport
      ensures old(challengeIndex) < 0 ==> r == Failure(StateError) && unchanged(this) && unchanged(rc) && unchanged(rc.transport)
      ensures old(challengeIndex) >= 0 ==> groups == old(groups) + [Sort(indices)]
      ensures old(challengeIndex) >= 0 && old(metas) == [] ==>
        r == Success(Solved(MultiSolution(groups))) && unchanged(rc) && unchanged(rc.transport)
      ensures r.Success? && r.value.NextChallenge? ==> old(metas) != [] && metas == old(metas)[1..]
      ensures r.Success? && r.value.Solved? && old(Valid()) ==>
        r.value.solution.MultiSolution? && |r.value.solution.groups| == total
        && forall k :: 0 <= k < |r.value.solution.groups| ==> Sorted(r.value.solution.groups[k])
      ensures r.Success? && r.value.NextChallenge? && old(Valid()) ==> Valid()
      ensures old(challengeIndex) >= 0 && old(metas) != [] ==>
        |rc.transport.sent| >= |old(rc.transport.sent)| + 1
        && rc.transport.sent[..|old(rc.transport.sent)|] == old(rc.transport.sent)
        && rc.transport.sent[|old(rc.transport.sent)|]
           == rc.AsPost("replaceimage", None, Some(Form(GroupForm(old(rc.currentToken), Sort(indices)))),
                        None, old(rc.currentToken))
      ensures old(challengeIndex) >= 0 && old(metas) != [] && r.Success? ==>
        r.value.NextChallenge?
        && JsonAnswer(old(rc.transport.replies), rc.loads).Success?
        && var fields := ImagesFields(JsonAnswer(old(rc.transport.replies), rc.loads).value);
           fields.Some?
           && rc.currentToken == fields.value.0 && rc.currentP == fields.value.1 && id == fields.value.2
           && |rc.transport.sent| == |old(rc.transport.sent)| + 2
           && rc.transport.sent[|old(rc.transport.sent)| + 1]
              == rc.AsGet("payload", Some(map["p" := old(rc.currentP), "k" := JNull, "id" := old(id)]), None, rc.currentP)
           && ImageAnswer(old(rc.transport.replies)[1..]).Success?
           && Success(r.value.challenge) == ChallengeFor(old(metas)[0], ImageAnswer(old(rc.transport.replies)[1..]).value)
    {
      if challengeIndex < 0 {
        return Failure(StateError);
      }
      groups := groups + [Sort(indices)];
      if metas == [] {
        return Success(Solved(MultiSolution(groups)));
      }
      var image := ReplaceImage();
      if image.Failure? {
        return Failure(image.error);
      }
      var challenge := NextGrid(image.value);
      if challenge.Failure? {
        return Failure(challenge.error);
      }
      return Success(NextChallenge(challenge.value));
    }
  }
}
